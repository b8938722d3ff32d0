/**
Who is told about a ticket change (internal/application/notifications.go).

`Batched` says which rows a list of candidates produces; the class
`NotificationBatch` builds them one candidate at a time, as the source does.
*/
module Notifications {
  import opened Core
  import opened Tickets
  import opened Policy

  datatype Kind =
    | AssignedKind | StateChanged | AwaitingConfirmation | CommentPublicKind | CommentInternalKind
    | FormWaiting | Mentioned | AssigneeChanged

  datatype Fact = StateFact(state: State) | NameFact(name: string)

  datatype Row = Row(
    user: UserId, kind: Kind, actor: Option<UserId>,
    from: Option<Fact>, to: Option<Fact>, step: Option<nat>)

  // The policy facts about one candidate.
  datatype Recipient = Recipient(user: UserId, role: Role, active: bool, service: bool)

  function RecipientOf(u: User): Recipient { Recipient(u.id, u.role, u.active, u.service) }

  // A candidate the ticket names (its access still has to be shown), or one whose
  // access the caller already proved.
  datatype Candidate =
    | Named(kind: Kind, who: Option<Recipient>, from: Option<Fact>, to: Option<Fact>)
    | Verified(kind: Kind, proven: Recipient, from: Option<Fact>, to: Option<Fact>)

  // The read policy for somebody the ticket names.
  predicate CanOpen(r: Recipient, t: TicketRow) {
    && ValidRole(r.role) && r.active
    && match ReadScope(r.role)
       case Owned => t.requester == Some(r.user)
       case AssignedOrClaimable => t.assignee == Some(r.user)
       case All => true
       case NoScope => false
  }

  function Person(c: Candidate): Option<Recipient> {
    match c
    case Named(_, who, _, _) => who
    case Verified(_, r, _, _) => Some(r)
  }

  // The candidate passes the admission rule of its kind of entry.
  predicate Eligible(t: TicketRow, c: Candidate) {
    match c
    case Named(_, who, _, _) => who.Some? && !who.value.service && CanOpen(who.value, t)
    case Verified(_, r, _, _) => r.active && ValidRole(r.role) && !r.service
  }

  // ... and the rules every kind shares: never the actor, never twice.
  predicate Admissible(t: TicketRow, actor: Option<UserId>, seen: set<UserId>, c: Candidate) {
    Eligible(t, c) && Person(c).value.user !in seen && actor != Some(Person(c).value.user)
  }

  function RowFor(actor: Option<UserId>, c: Candidate): Row
    requires Person(c).Some?
  {
    Row(Person(c).value.user, c.kind, actor, c.from, c.to, None)
  }

  function Batched(t: TicketRow, actor: Option<UserId>, seen: set<UserId>, cs: seq<Candidate>): seq<Row>
    decreases |cs|
  {
    if cs == [] then []
    else if Admissible(t, actor, seen, cs[0]) then
      [RowFor(actor, cs[0])] + Batched(t, actor, seen + {Person(cs[0]).value.user}, cs[1..])
    else Batched(t, actor, seen, cs[1..])
  }

  // Everybody the candidates address, on top of `seen`.
  function Addressed(t: TicketRow, actor: Option<UserId>, seen: set<UserId>, cs: seq<Candidate>): set<UserId>
    decreases |cs|
  {
    if cs == [] then seen
    else Addressed(t, actor, if Admissible(t, actor, seen, cs[0]) then seen + {Person(cs[0]).value.user} else seen, cs[1..])
  }

  lemma {:induction false} BatchedSnoc(t: TicketRow, actor: Option<UserId>, seen: set<UserId>, cs: seq<Candidate>,
      c: Candidate)
    ensures var told := Addressed(t, actor, seen, cs);
            var admitted := Admissible(t, actor, told, c);
            && Batched(t, actor, seen, cs + [c]) == Batched(t, actor, seen, cs) + (if admitted then [RowFor(actor, c)] else [])
            && Addressed(t, actor, seen, cs + [c]) == (if admitted then told + {Person(c).value.user} else told)
    decreases |cs|
  {
    if cs == [] {
      assert cs + [c] == [c];
    } else {
      assert (cs + [c])[1..] == cs[1..] + [c];
      BatchedSnoc(t, actor, if Admissible(t, actor, seen, cs[0]) then seen + {Person(cs[0]).value.user} else seen, cs[1..], c);
    }
  }

  class NotificationBatch {
    const ticket: TicketRow
    const actor: Option<UserId>
    var rows: seq<Row>
    var seen: set<UserId>

    constructor (ticket: TicketRow, actor: Option<UserId>, seen: set<UserId>)
      ensures this.ticket == ticket && this.actor == actor && this.seen == seen && rows == []
      ensures Holds(seen, [])
    {
      this.ticket, this.actor, this.seen, rows := ticket, actor, seen, [];
    }

    // The batch holds the rows of these candidates, started from `start`.
    ghost predicate Holds(start: set<UserId>, cs: seq<Candidate>)
      reads this
    {
      rows == Batched(ticket, actor, start, cs) && seen == Addressed(ticket, actor, start, cs)
    }

    method AppendRow(ghost start: set<UserId>, ghost cs: seq<Candidate>, c: Candidate)
      requires Holds(start, cs) && Eligible(ticket, c)
      modifies this`rows, this`seen
      ensures Holds(start, cs + [c])
    {
      BatchedSnoc(ticket, actor, start, cs, c);
      var r := Person(c).value;
      if actor != Some(r.user) && r.user !in seen {
        seen := seen + {r.user};
        rows := rows + [RowFor(actor, c)];
      }
    }

    method Add(ghost start: set<UserId>, ghost cs: seq<Candidate>, kind: Kind, who: Option<Recipient>,
        from: Option<Fact>, to: Option<Fact>)
      requires Holds(start, cs)
      modifies this`rows, this`seen
      ensures Holds(start, cs + [Named(kind, who, from, to)])
    {
      if who.None? || who.value.service || !CanOpen(who.value, ticket) {
        BatchedSnoc(ticket, actor, start, cs, Named(kind, who, from, to));
        return;
      }
      AppendRow(start, cs, Named(kind, who, from, to));
    }

    method AddVerified(ghost start: set<UserId>, ghost cs: seq<Candidate>, kind: Kind, v: Recipient,
        from: Option<Fact>, to: Option<Fact>)
      requires Holds(start, cs)
      modifies this`rows, this`seen
      ensures Holds(start, cs + [Verified(kind, v, from, to)])
    {
      if !v.active || !ValidRole(v.role) || v.service {
        BatchedSnoc(ticket, actor, start, cs, Verified(kind, v, from, to));
        return;
      }
      AppendRow(start, cs, Verified(kind, v, from, to));
    }
  }

  // ---- What a batch is ------------------------------------------------------------

  // Candidate `i` is the first admissible one of its person.
  ghost predicate FirstFor(t: TicketRow, actor: Option<UserId>, seen: set<UserId>, cs: seq<Candidate>, i: int) {
    && 0 <= i < |cs|
    && Admissible(t, actor, seen, cs[i])
    && forall j :: 0 <= j < i && Eligible(t, cs[j]) ==> Person(cs[j]).value.user != Person(cs[i]).value.user
  }

  // A batch tells each person at most once, never the actor, never somebody
  // already addressed, inactive, unknown or a service user, never somebody the
  // ticket names who cannot open it; a person is told if and only if some
  // candidate is admissible for them, and then by the first one.
  lemma BatchExactly(t: TicketRow, actor: Option<UserId>, seen: set<UserId>, cs: seq<Candidate>)
    ensures var rows := Batched(t, actor, seen, cs);
            && Distinct(rows)
            && (forall r :: r in rows <==> exists i :: FirstFor(t, actor, seen, cs, i) && r == RowFor(actor, cs[i]))
  {
    var rows := Batched(t, actor, seen, cs);
    BatchDistinct(t, actor, seen, cs);
    forall r | r in rows
      ensures exists i :: FirstFor(t, actor, seen, cs, i) && r == RowFor(actor, cs[i])
    {
      var i := RowSource(t, actor, seen, cs, r);
    }
    forall r | exists i :: FirstFor(t, actor, seen, cs, i) && r == RowFor(actor, cs[i])
      ensures r in rows
    {
      var i :| FirstFor(t, actor, seen, cs, i) && r == RowFor(actor, cs[i]);
      FirstHasRow(t, actor, seen, cs, i);
    }
  }

  predicate Distinct(rows: seq<Row>) {
    forall i, j :: 0 <= i < j < |rows| ==> rows[i].user != rows[j].user
  }

  predicate Addresses(rows: seq<Row>, who: UserId) {
    exists i :: 0 <= i < |rows| && rows[i].user == who
  }

  lemma {:induction false} BatchDistinct(t: TicketRow, actor: Option<UserId>, seen: set<UserId>, cs: seq<Candidate>)
    ensures Distinct(Batched(t, actor, seen, cs))
    ensures forall who :: Addresses(Batched(t, actor, seen, cs), who) ==> who !in seen && actor != Some(who)
    decreases |cs|
  {
    if cs != [] {
      var seen' := if Admissible(t, actor, seen, cs[0]) then seen + {Person(cs[0]).value.user} else seen;
      var rows, rest := Batched(t, actor, seen, cs), Batched(t, actor, seen', cs[1..]);
      BatchDistinct(t, actor, seen', cs[1..]);
      if Admissible(t, actor, seen, cs[0]) {
        assert rows == [RowFor(actor, cs[0])] + rest;
        forall i | 0 <= i < |rest|
          ensures rest[i].user !in seen' && actor != Some(rest[i].user)
        {
          assert Addresses(rest, rest[i].user);
        }
      }
    }
  }

  lemma {:induction false} RowSource(t: TicketRow, actor: Option<UserId>, seen: set<UserId>, cs: seq<Candidate>, r: Row)
      returns (i: int)
    requires r in Batched(t, actor, seen, cs)
    ensures FirstFor(t, actor, seen, cs, i) && r == RowFor(actor, cs[i])
    decreases |cs|
  {
    if Admissible(t, actor, seen, cs[0]) && r == RowFor(actor, cs[0]) {
      return 0;
    }
    var seen' := if Admissible(t, actor, seen, cs[0]) then seen + {Person(cs[0]).value.user} else seen;
    var k := RowSource(t, actor, seen', cs[1..], r);
    FirstShifts(t, actor, seen, cs, k + 1);
    return k + 1;
  }

  lemma {:induction false} FirstHasRow(t: TicketRow, actor: Option<UserId>, seen: set<UserId>, cs: seq<Candidate>, i: int)
    requires FirstFor(t, actor, seen, cs, i)
    ensures RowFor(actor, cs[i]) in Batched(t, actor, seen, cs)
    decreases |cs|
  {
    if i > 0 {
      FirstShifts(t, actor, seen, cs, i);
      FirstHasRow(t, actor, if Admissible(t, actor, seen, cs[0]) then seen + {Person(cs[0]).value.user} else seen, cs[1..], i - 1);
    }
  }

  lemma FirstShifts(t: TicketRow, actor: Option<UserId>, seen: set<UserId>, cs: seq<Candidate>, i: int)
    requires 0 < i < |cs|
    ensures var seen' := if Admissible(t, actor, seen, cs[0]) then seen + {Person(cs[0]).value.user} else seen;
            FirstFor(t, actor, seen, cs, i) <==> FirstFor(t, actor, seen', cs[1..], i - 1)
  {
    var rest := cs[1..];
    assert forall j :: 0 <= j < |rest| ==> rest[j] == cs[j + 1];
    var seen' := if Admissible(t, actor, seen, cs[0]) then seen + {Person(cs[0]).value.user} else seen;
    if FirstFor(t, actor, seen', rest, i - 1) {
      forall j | 0 <= j < i && Eligible(t, cs[j])
        ensures Person(cs[j]).value.user != Person(cs[i]).value.user
      {
        if j > 0 {
          assert rest[j - 1] == cs[j];
        }
      }
    }
  }

  // ---- The builders -----------------------------------------------------------

  // Everybody one ticket change can address.
  datatype Recipients = Recipients(
    requester: Option<Recipient>,
    assignee: Option<Recipient>,
    followers: seq<Recipient>,
    mentioned: seq<Recipient>)

  function VerifiedAll(kind: Kind, rs: seq<Recipient>, from: Option<Fact>, to: Option<Fact>): seq<Candidate> {
    seq(|rs|, i requires 0 <= i < |rs| => Verified(kind, rs[i], from, to))
  }

  method AddAll(b: NotificationBatch, ghost start: set<UserId>, ghost cs: seq<Candidate>, kind: Kind,
      rs: seq<Recipient>, from: Option<Fact>, to: Option<Fact>)
    requires b.Holds(start, cs)
    modifies b`rows, b`seen
    ensures b.Holds(start, cs + VerifiedAll(kind, rs, from, to))
  {
    ghost var all := VerifiedAll(kind, rs, from, to);
    assert cs + all[..0] == cs;
    for i := 0 to |rs|
      invariant b.Holds(start, cs + all[..i])
    {
      b.AddVerified(start, cs + all[..i], kind, rs[i], from, to);
      assert (cs + all[..i]) + [all[i]] == cs + all[..i + 1];
    }
    assert all[..|rs|] == all;
  }

  // One net state change: a move into resolved asks the requester to confirm
  // instead of reporting it.
  function StateChangeCandidates(from: State, to: State, r: Recipients): seq<Candidate> {
    var f, t := Some(StateFact(from)), Some(StateFact(to));
    [Named(if to == Resolved then AwaitingConfirmation else StateChanged, r.requester, f, t),
     Named(StateChanged, r.assignee, f, t)] + VerifiedAll(StateChanged, r.followers, f, t)
  }

  function StateChangeRows(t: TicketRow, from: State, to: State, actor: Option<UserId>, r: Recipients): seq<Row> {
    if from == to then [] else Batched(t, actor, {}, StateChangeCandidates(from, to, r))
  }

  method StateChangeNotifications(t: TicketRow, from: State, to: State, actor: Option<UserId>, r: Recipients)
      returns (rows: seq<Row>)
    ensures rows == StateChangeRows(t, from, to, actor, r)
  {
    if from == to {
      return [];
    }
    var b := new NotificationBatch(t, actor, {});
    var f, to' := Some(StateFact(from)), Some(StateFact(to));
    var kind := StateChanged;
    if to == Resolved {
      kind := AwaitingConfirmation;
    }
    ghost var c0, c1 := Named(kind, r.requester, f, to'), Named(StateChanged, r.assignee, f, to');
    b.Add({}, [], kind, r.requester, f, to');
    assert [] + [c0] == [c0] && [c0] + [c1] == [c0, c1];
    b.Add({}, [c0], StateChanged, r.assignee, f, to');
    AddAll(b, {}, [c0, c1], StateChanged, r.followers, f, to');
    return b.rows;
  }

  // ---- Comments -----------------------------------------------------------------

  predicate CanSeeInternal(r: Recipient) {
    ValidRole(r.role) && r.active && CommentInternal in Capabilities(r.role)
  }

  function KeepInternal(rs: seq<Recipient>): seq<Recipient> {
    if rs == [] then []
    else (if CanSeeInternal(rs[0]) then [rs[0]] else []) + KeepInternal(rs[1..])
  }

  // Mentioned staff first, then the people the ticket names, then followers.  An
  // internal comment has no requester candidate and drops everybody who may not
  // read it.
  function CommentCandidates(isInternal: bool, r: Recipients): seq<Candidate> {
    if isInternal then
      VerifiedAll(Mentioned, KeepInternal(r.mentioned), None, None)
      + (if r.assignee.Some? && CanSeeInternal(r.assignee.value) then [Named(CommentInternalKind, r.assignee, None, None)] else [])
      + VerifiedAll(CommentInternalKind, KeepInternal(r.followers), None, None)
    else
      VerifiedAll(Mentioned, r.mentioned, None, None)
      + [Named(CommentPublicKind, r.requester, None, None), Named(CommentPublicKind, r.assignee, None, None)]
      + VerifiedAll(CommentPublicKind, r.followers, None, None)
  }

  function CommentRows(t: TicketRow, isInternal: bool, actor: Option<UserId>, r: Recipients): seq<Row> {
    Batched(t, actor, {}, CommentCandidates(isInternal, r))
  }

  method AddInternal(b: NotificationBatch, ghost start: set<UserId>, ghost cs: seq<Candidate>, kind: Kind,
      rs: seq<Recipient>)
    requires b.Holds(start, cs)
    modifies b`rows, b`seen
    ensures b.Holds(start, cs + VerifiedAll(kind, KeepInternal(rs), None, None))
  {
    assert rs[..0] == [] && cs + VerifiedAll(kind, [], None, None) == cs;
    for i := 0 to |rs|
      invariant b.Holds(start, cs + InternalUpTo(kind, rs, i))
    {
      InternalSnoc(cs, kind, rs, i);
      if CanSeeInternal(rs[i]) {
        b.AddVerified(start, cs + InternalUpTo(kind, rs, i), kind, rs[i], None, None);
      }
    }
    assert rs[..|rs|] == rs;
  }

  // The candidates of the first recipients who may read an internal comment.
  function InternalUpTo(kind: Kind, rs: seq<Recipient>, i: nat): seq<Candidate>
    requires i <= |rs|
  {
    VerifiedAll(kind, KeepInternal(rs[..i]), None, None)
  }

  lemma InternalSnoc(cs: seq<Candidate>, kind: Kind, rs: seq<Recipient>, i: nat)
    requires i < |rs|
    ensures cs + InternalUpTo(kind, rs, i + 1) ==
              if CanSeeInternal(rs[i]) then cs + InternalUpTo(kind, rs, i) + [Verified(kind, rs[i], None, None)]
              else cs + InternalUpTo(kind, rs, i)
  {
    assert rs[..i + 1] == rs[..i] + [rs[i]];
    KeepInternalSnoc(rs[..i], rs[i]);
  }

  lemma {:induction false} KeepInternalSnoc(rs: seq<Recipient>, r: Recipient)
    ensures KeepInternal(rs + [r]) == KeepInternal(rs) + if CanSeeInternal(r) then [r] else []
  {
    if rs != [] {
      assert (rs + [r])[1..] == rs[1..] + [r];
      KeepInternalSnoc(rs[1..], r);
    }
  }

  method CommentNotifications(t: TicketRow, isInternal: bool, actor: Option<UserId>, r: Recipients) returns (rows: seq<Row>)
    ensures rows == CommentRows(t, isInternal, actor, r)
  {
    var b := new NotificationBatch(t, actor, {});
    if isInternal {
      AddInternal(b, {}, [], Mentioned, r.mentioned);
      ghost var cs := VerifiedAll(Mentioned, KeepInternal(r.mentioned), None, None);
      assert [] + cs == cs;
      if r.assignee.Some? && CanSeeInternal(r.assignee.value) {
        b.Add({}, cs, CommentInternalKind, r.assignee, None, None);
        cs := cs + [Named(CommentInternalKind, r.assignee, None, None)];
      }
      assert cs == VerifiedAll(Mentioned, KeepInternal(r.mentioned), None, None)
        + (if r.assignee.Some? && CanSeeInternal(r.assignee.value) then [Named(CommentInternalKind, r.assignee, None, None)] else []);
      AddInternal(b, {}, cs, CommentInternalKind, r.followers);
    } else {
      AddAll(b, {}, [], Mentioned, r.mentioned, None, None);
      ghost var cs := VerifiedAll(Mentioned, r.mentioned, None, None);
      ghost var c0, c1 := Named(CommentPublicKind, r.requester, None, None), Named(CommentPublicKind, r.assignee, None, None);
      assert [] + cs == cs;
      b.Add({}, cs, CommentPublicKind, r.requester, None, None);
      b.Add({}, cs + [c0], CommentPublicKind, r.assignee, None, None);
      assert (cs + [c0]) + [c1] == cs + [c0, c1];
      AddAll(b, {}, cs + [c0, c1], CommentPublicKind, r.followers, None, None);
    }
    return b.rows;
  }

  // The mention candidate of `m` is one the batch may tell.
  predicate MentionReaches(t: TicketRow, isInternal: bool, m: Recipient) {
    Eligible(t, Verified(Mentioned, m, None, None)) && (isInternal ==> CanSeeInternal(m))
  }

  // Every comment: nobody is told twice, nobody hears about their own comment,
  // every recipient is an active person, a mentioned person is told as mentioned
  // only, and everybody told about an internal comment may read it.
  lemma CommentRowsAreSafe(t: TicketRow, isInternal: bool, actor: Option<UserId>, r: Recipients)
    ensures var rows := CommentRows(t, isInternal, actor, r);
            && Distinct(rows)
            && (actor.Some? ==> !Addresses(rows, actor.value))
            && (forall row :: row in rows ==> exists c :: c in CommentCandidates(isInternal, r) && Eligible(t, c) && row == RowFor(actor, c))
            && (forall m, row :: m in r.mentioned && row in rows && row.user == m.user && MentionReaches(t, isInternal, m)
                  ==> row.kind == Mentioned)
            && (isInternal ==> forall row :: row in rows ==>
                  exists p: Recipient :: p.user == row.user && CanSeeInternal(p) && !p.service && (p in r.mentioned || p in r.followers || Some(p) == r.assignee))
  {
    var cs := CommentCandidates(isInternal, r);
    BatchDistinct(t, actor, {}, cs);
    KeepInternalMembers(r.mentioned);
    KeepInternalMembers(r.followers);
    var rows := CommentRows(t, isInternal, actor, r);
    forall row | row in rows
      ensures exists c :: c in cs && Eligible(t, c) && row == RowFor(actor, c)
      ensures isInternal ==> exists p: Recipient :: p.user == row.user && CanSeeInternal(p) && !p.service &&
                                         (p in r.mentioned || p in r.followers || Some(p) == r.assignee)
    {
      var i := RowSource(t, actor, {}, cs, row);
      assert cs[i] in cs;
      var p := Person(cs[i]).value;
      assert isInternal ==> p in KeepInternal(r.mentioned) || p in KeepInternal(r.followers) || Some(p) == r.assignee;
    }
    forall m, row | m in r.mentioned && row in rows && row.user == m.user && MentionReaches(t, isInternal, m)
      ensures row.kind == Mentioned
    {
      var i := RowSource(t, actor, {}, cs, row);
      var listed := if isInternal then KeepInternal(r.mentioned) else r.mentioned;
      var k :| 0 <= k < |listed| && listed[k] == m;
      assert cs[k] == Verified(Mentioned, m, None, None);
    }
  }

  lemma {:induction false} KeepInternalMembers(rs: seq<Recipient>)
    ensures forall p :: p in KeepInternal(rs) <==> p in rs && CanSeeInternal(p)
  {
    if rs != [] {
      KeepInternalMembers(rs[1..]);
      assert rs == [rs[0]] + rs[1..];
    }
  }
}
