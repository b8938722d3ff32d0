/**
Who each notification builder tells and what, without the batch: by the roles of
the people, in closed form (internal/application/notifications.go).
*/
module NotificationFacts {
  import opened Core
  import opened Tickets
  import opened Policy
  import opened Notifications

  // ---- Batches -----------------------------------------------------------------------

  // A batch addresses a person if and only if some candidate of theirs is eligible and
  // they are neither the actor nor addressed already.
  lemma {:induction false} AddressedIff(t: TicketRow, actor: Option<UserId>, seen: set<UserId>, cs: seq<Candidate>, who: UserId)
    ensures Addresses(Batched(t, actor, seen, cs), who) <==> who !in seen && actor != Some(who) && Offered(t, cs, who)
    decreases |cs|
  {
    if cs != [] {
      var seen' := if Admissible(t, actor, seen, cs[0]) then seen + {Person(cs[0]).value.user} else seen;
      AddressedIff(t, actor, seen', cs[1..], who);
      OfferedHead(t, cs, who);
      if Admissible(t, actor, seen, cs[0]) {
        var head := [RowFor(actor, cs[0])];
        assert Batched(t, actor, seen, cs) == head + Batched(t, actor, seen', cs[1..]);
        AddressesAppend(head, Batched(t, actor, seen', cs[1..]), who);
        assert Addresses(head, who) <==> head[0].user == who;
      }
    }
  }

  predicate Offered(t: TicketRow, cs: seq<Candidate>, who: UserId) {
    exists i :: 0 <= i < |cs| && OffersTo(t, cs[i], who)
  }

  predicate OffersTo(t: TicketRow, c: Candidate, who: UserId) { Eligible(t, c) && Person(c).value.user == who }

  lemma OfferedHead(t: TicketRow, cs: seq<Candidate>, who: UserId)
    requires cs != []
    ensures Offered(t, cs, who) <==> OffersTo(t, cs[0], who) || Offered(t, cs[1..], who)
  {
    if i :| 0 <= i < |cs[1..]| && OffersTo(t, cs[1..][i], who) {
      assert cs[i + 1] == cs[1..][i];
    }
    if i :| 0 <= i < |cs| && OffersTo(t, cs[i], who) {
      assert i > 0 ==> cs[1..][i - 1] == cs[i];
    }
  }

  lemma AddressesAppend(a: seq<Row>, b: seq<Row>, who: UserId)
    ensures Addresses(a + b, who) <==> Addresses(a, who) || Addresses(b, who)
  {
    if i :| 0 <= i < |b| && b[i].user == who {
      assert (a + b)[|a| + i].user == who;
    }
    if i :| 0 <= i < |a| && a[i].user == who {
      assert (a + b)[i].user == who;
    }
  }

  // The first candidate that offers to a person decides their row.
  lemma FirstDecides(t: TicketRow, actor: Option<UserId>, seen: set<UserId>, cs: seq<Candidate>, i: nat, row: Row)
    requires i < |cs| && OffersTo(t, cs[i], row.user) && forall j :: 0 <= j < i ==> !OffersTo(t, cs[j], row.user)
    ensures row in Batched(t, actor, seen, cs) <==>
              row.user !in seen && actor != Some(row.user) && row == Row(row.user, cs[i].kind, actor, cs[i].from, cs[i].to, None)
  {
    if row in Batched(t, actor, seen, cs) {
      var k := RowSource(t, actor, seen, cs, row);
      assert OffersTo(t, cs[k], row.user);
      assert k == i;
    }
    if row.user !in seen && actor != Some(row.user) && row == RowFor(actor, cs[i]) {
      assert FirstFor(t, actor, seen, cs, i) by {
        forall j | 0 <= j < i && Eligible(t, cs[j])
          ensures Person(cs[j]).value.user != row.user
        {
          assert !OffersTo(t, cs[j], row.user);
        }
      }
      FirstHasRow(t, actor, seen, cs, i);
    }
  }

  lemma NobodyOffers(t: TicketRow, actor: Option<UserId>, seen: set<UserId>, cs: seq<Candidate>, row: Row)
    requires !Offered(t, cs, row.user)
    ensures row !in Batched(t, actor, seen, cs)
  {
    if row in Batched(t, actor, seen, cs) {
      var k := RowSource(t, actor, seen, cs, row);
      assert OffersTo(t, cs[k], row.user);
    }
  }

  // A run of candidates with one kind and one pair of facts behind others: it decides
  // the row of everybody it offers to whom the others do not.
  lemma BlockDecides(t: TicketRow, actor: Option<UserId>, seen: set<UserId>, before: seq<Candidate>, block: seq<Candidate>,
      after: seq<Candidate>, kind: Kind, from: Option<Fact>, to: Option<Fact>, row: Row)
    requires forall i :: 0 <= i < |block| ==> block[i].kind == kind && block[i].from == from && block[i].to == to
    requires !Offered(t, before, row.user) && Offered(t, block, row.user)
    ensures row in Batched(t, actor, seen, before + block + after) <==>
              row.user !in seen && actor != Some(row.user) && row == Row(row.user, kind, actor, from, to, None)
  {
    var i := FirstOffer(t, block, row.user);
    var cs := before + block + after;
    var k := |before| + i;
    assert cs[k] == block[i];
    forall j | 0 <= j < k
      ensures !OffersTo(t, cs[j], row.user)
    {
      assert cs[j] == if j < |before| then before[j] else block[j - |before|];
    }
    FirstDecides(t, actor, seen, cs, k, row);
  }

  lemma {:induction false} FirstOffer(t: TicketRow, cs: seq<Candidate>, who: UserId) returns (i: nat)
    requires Offered(t, cs, who)
    ensures i < |cs| && OffersTo(t, cs[i], who) && forall j :: 0 <= j < i ==> !OffersTo(t, cs[j], who)
  {
    i := 0;
    while !OffersTo(t, cs[i], who)
      invariant i < |cs| && forall j :: 0 <= j < i ==> !OffersTo(t, cs[j], who)
      decreases |cs| - i
    {
      assert exists k :: 0 <= k < |cs| && OffersTo(t, cs[k], who) && k > i;
      i := i + 1;
    }
  }

  lemma OfferedAppend(t: TicketRow, a: seq<Candidate>, b: seq<Candidate>, who: UserId)
    ensures Offered(t, a + b, who) <==> Offered(t, a, who) || Offered(t, b, who)
  {
    var cs := a + b;
    if i :| 0 <= i < |a| && OffersTo(t, a[i], who) {
      assert cs[i] == a[i];
    }
    if i :| 0 <= i < |b| && OffersTo(t, b[i], who) {
      assert cs[|a| + i] == b[i];
    }
    if i :| 0 <= i < |cs| && OffersTo(t, cs[i], who) {
      assert cs[i] == if i < |a| then a[i] else b[i - |a|];
    }
  }

  // ---- Who may be told ---------------------------------------------------------------

  // An active person may open the ticket as its requester, as the agent who holds it,
  // or as an administrator.
  predicate MayOpen(r: Recipient, t: TicketRow) {
    && r.active
    && match r.role
       case UserRole => t.requester == Some(r.user)
       case AgentRole => t.assignee == Some(r.user)
       case AdminRole => true
       case RootRole => true
       case UnknownRole => false
  }

  lemma OpensAsPolicySays(r: Recipient, t: TicketRow)
    ensures CanOpen(r, t) <==> MayOpen(r, t)
  {
  }

  // The ticket names this person, and they are no service account and may open it.
  predicate NamedAs(r: Option<Recipient>, t: TicketRow, who: UserId) {
    r.Some? && r.value.user == who && !r.value.service && MayOpen(r.value, t)
  }

  // The person is on the list, active, of a known role and no service account.
  predicate OnList(rs: seq<Recipient>, who: UserId) {
    exists i :: 0 <= i < |rs| && OnListAt(rs[i], who)
  }

  predicate OnListAt(r: Recipient, who: UserId) { r.user == who && r.active && r.role != UnknownRole && !r.service }

  lemma OfferedNamed(t: TicketRow, kind: Kind, r: Option<Recipient>, from: Option<Fact>, to: Option<Fact>, who: UserId)
    ensures Offered(t, [Named(kind, r, from, to)], who) <==> NamedAs(r, t, who)
  {
    var cs := [Named(kind, r, from, to)];
    assert OffersTo(t, cs[0], who) <==> NamedAs(r, t, who);
  }

  lemma OfferedListed(t: TicketRow, kind: Kind, rs: seq<Recipient>, from: Option<Fact>, to: Option<Fact>, who: UserId)
    ensures Offered(t, VerifiedAll(kind, rs, from, to), who) <==> OnList(rs, who)
  {
    var cs := VerifiedAll(kind, rs, from, to);
    assert forall i :: 0 <= i < |rs| ==> (OffersTo(t, cs[i], who) <==> OnListAt(rs[i], who));
  }

  // ---- A state change ----------------------------------------------------------------

  // Its row: the requester of a ticket moved into resolved is asked to confirm, the
  // requester of any other, the assignee and the followers hear of the change.
  predicate StateRow(t: TicketRow, from: State, to: State, actor: Option<UserId>, r: Recipients, row: Row) {
    && from != to && actor != Some(row.user)
    && row.actor == actor && row.from == Some(StateFact(from)) && row.to == Some(StateFact(to)) && row.step == None
    && if NamedAs(r.requester, t, row.user) then row.kind == if to == Resolved then AwaitingConfirmation else StateChanged
       else (NamedAs(r.assignee, t, row.user) || OnList(r.followers, row.user)) && row.kind == StateChanged
  }

  lemma StateChangeTells(t: TicketRow, from: State, to: State, actor: Option<UserId>, r: Recipients, row: Row)
    ensures row in StateChangeRows(t, from, to, actor, r) <==> StateRow(t, from, to, actor, r, row)
  {
    if from != to {
      var f, t' := Some(StateFact(from)), Some(StateFact(to));
      var asked := [Named(if to == Resolved then AwaitingConfirmation else StateChanged, r.requester, f, t')];
      var held := [Named(StateChanged, r.assignee, f, t')];
      var followed := VerifiedAll(StateChanged, r.followers, f, t');
      assert StateChangeCandidates(from, to, r) == asked + (held + followed);
      OfferedNamed(t, asked[0].kind, r.requester, f, t', row.user);
      OfferedNamed(t, StateChanged, r.assignee, f, t', row.user);
      OfferedListed(t, StateChanged, r.followers, f, t', row.user);
      OfferedAppend(t, held, followed, row.user);
      OfferedAppend(t, asked, held + followed, row.user);
      TwoBlocks(t, actor, {}, asked, held + followed, asked[0].kind, StateChanged, f, t', row);
    }
  }

  // Two runs of candidates: the second decides for whom the first does not.
  lemma TwoBlocks(t: TicketRow, actor: Option<UserId>, seen: set<UserId>, a: seq<Candidate>, b: seq<Candidate>, kindA: Kind,
      kindB: Kind, from: Option<Fact>, to: Option<Fact>, row: Row)
    requires forall i :: 0 <= i < |a| ==> a[i].kind == kindA && a[i].from == from && a[i].to == to
    requires forall i :: 0 <= i < |b| ==> b[i].kind == kindB && b[i].from == from && b[i].to == to
    ensures row in Batched(t, actor, seen, a + b) <==>
              && row.user !in seen && actor != Some(row.user) && (Offered(t, a, row.user) || Offered(t, b, row.user))
              && row == Row(row.user, if Offered(t, a, row.user) then kindA else kindB, actor, from, to, None)
  {
    OfferedAppend(t, a, b, row.user);
    if Offered(t, a, row.user) {
      assert [] + a + b == a + b;
      BlockDecides(t, actor, seen, [], a, b, kindA, from, to, row);
    } else if Offered(t, b, row.user) {
      assert a + b + [] == a + b;
      BlockDecides(t, actor, seen, a, b, [], kindB, from, to, row);
    } else {
      NobodyOffers(t, actor, seen, a + b, row);
    }
  }

  // ---- A comment ---------------------------------------------------------------------

  // An active agent or administrator.
  predicate Staff(r: Recipient) { r.active && r.role in {AgentRole, AdminRole, RootRole} }

  predicate StaffOnList(rs: seq<Recipient>, who: UserId) {
    exists i :: 0 <= i < |rs| && StaffOnListAt(rs[i], who)
  }

  predicate StaffOnListAt(r: Recipient, who: UserId) { r.user == who && Staff(r) && !r.service }

  // Its row: whoever is mentioned is told so; of the others, of a public comment the
  // requester, the assignee and the followers, of an internal one the assignee and the
  // followers who are staff.  The author is never told.
  predicate CommentRow(t: TicketRow, isInternal: bool, actor: Option<UserId>, r: Recipients, row: Row) {
    && actor != Some(row.user)
    && row.actor == actor && row.from == None && row.to == None && row.step == None
    && if isInternal then
         if StaffOnList(r.mentioned, row.user) then row.kind == Mentioned
         else
           && ((NamedAs(r.assignee, t, row.user) && Staff(r.assignee.value)) || StaffOnList(r.followers, row.user))
           && row.kind == CommentInternalKind
       else
         if OnList(r.mentioned, row.user) then row.kind == Mentioned
         else
           && (NamedAs(r.requester, t, row.user) || NamedAs(r.assignee, t, row.user) || OnList(r.followers, row.user))
           && row.kind == CommentPublicKind
  }

  lemma OfferedStaff(t: TicketRow, kind: Kind, rs: seq<Recipient>, who: UserId)
    ensures Offered(t, VerifiedAll(kind, KeepInternal(rs), None, None), who) <==> StaffOnList(rs, who)
  {
    var kept := KeepInternal(rs);
    KeepInternalMembers(rs);
    OfferedListed(t, kind, kept, None, None, who);
    if i :| 0 <= i < |kept| && OnListAt(kept[i], who) {
      assert kept[i] in kept;
      var k :| 0 <= k < |rs| && rs[k] == kept[i];
      assert StaffOnListAt(rs[k], who);
    }
    if i :| 0 <= i < |rs| && StaffOnListAt(rs[i], who) {
      assert rs[i] in kept;
      var k :| 0 <= k < |kept| && kept[k] == rs[i];
      assert OnListAt(kept[k], who);
    }
  }

  lemma CommentTells(t: TicketRow, isInternal: bool, actor: Option<UserId>, r: Recipients, row: Row)
    ensures row in CommentRows(t, isInternal, actor, r) <==> CommentRow(t, isInternal, actor, r, row)
  {
    if isInternal {
      var mentioned := VerifiedAll(Mentioned, KeepInternal(r.mentioned), None, None);
      var followed := VerifiedAll(CommentInternalKind, KeepInternal(r.followers), None, None);
      var held: seq<Candidate> := if r.assignee.Some? && CanSeeInternal(r.assignee.value)
                                  then [Named(CommentInternalKind, r.assignee, None, None)] else [];
      assert CommentCandidates(true, r) == mentioned + (held + followed);
      OfferedStaff(t, Mentioned, r.mentioned, row.user);
      OfferedStaff(t, CommentInternalKind, r.followers, row.user);
      OfferedNamed(t, CommentInternalKind, r.assignee, None, None, row.user);
      OfferedAppend(t, held, followed, row.user);
      TwoBlocks(t, actor, {}, mentioned, held + followed, Mentioned, CommentInternalKind, None, None, row);
    } else {
      PublicTells(t, actor, r, row);
    }
  }

  lemma PublicTells(t: TicketRow, actor: Option<UserId>, r: Recipients, row: Row)
    ensures row in CommentRows(t, false, actor, r) <==> CommentRow(t, false, actor, r, row)
  {
    var mentioned, followed := VerifiedAll(Mentioned, r.mentioned, None, None), VerifiedAll(CommentPublicKind, r.followers, None, None);
    var asked, held := [Named(CommentPublicKind, r.requester, None, None)], [Named(CommentPublicKind, r.assignee, None, None)];
    assert CommentCandidates(false, r) == mentioned + (asked + (held + followed));
    OfferedListed(t, Mentioned, r.mentioned, None, None, row.user);
    OfferedListed(t, CommentPublicKind, r.followers, None, None, row.user);
    OfferedNamed(t, CommentPublicKind, r.requester, None, None, row.user);
    OfferedNamed(t, CommentPublicKind, r.assignee, None, None, row.user);
    OfferedAppend(t, held, followed, row.user);
    OfferedAppend(t, asked, held + followed, row.user);
    TwoBlocks(t, actor, {}, mentioned, asked + (held + followed), Mentioned, CommentPublicKind, None, None, row);
  }
}
