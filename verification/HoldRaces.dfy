/**
Races on one ticket's hold (HoldProtocol): what two holds in one second do to the
commitment, and what a write decided on an older row does to the row.
*/
module HoldRaces {
  import opened Core
  import opened Tickets
  import opened Workflow
  import opened PlanRecheck
  import opened Holds
  import opened HoldProtocol

  // ---- Two holds at one stored instant -----------------------------------------------

  // A new hold keeps the promises if and only if its stored instant is new.
  lemma NewHoldKeepsIff(w: World, id: nat)
    requires Invariant(w) && id in w.pending && w.pending[id].Decided? && w.pending[id].intent.Begin?
    ensures Safe(Written(w, id)) <==> FreshHold(w, Write(id))
  {
    if FreshHold(w, Write(id)) {
      OtherWritesKeep(w, id, Written(w, id));
    }
  }

  // The commitment is the original one, shifted once per ended hold.
  ghost predicate Commits(w: World) { w.stored.sla == AfterHolds(w.initial, w.ended) }

  // The step ends the stored hold.
  predicate Ends(w: World, l: Label) {
    && l.Write? && l.id in w.pending && w.pending[l.id].Ready? && w.pending[l.id].intent.End?
    && w.stored.row.onHoldSince == Some(w.pending[l.id].intent.since)
  }

  predicate EndsAt(trace: seq<World>, labels: seq<Label>, m: nat) {
    m < |trace| && m < |labels| && Ends(trace[m], labels[m])
  }

  // The use case `id` that is under way at state `k` read the commitment at step `r`.
  predicate SlaReadAt(labels: seq<Label>, r: nat, k: nat, id: nat) {
    && r < k <= |labels| && IsSlaRead(labels[r], id)
    && forall m :: r < m < k ==> !IsSlaRead(labels[m], id)
  }

  predicate IsSlaRead(l: Label, id: nat) { l.ReadSla? && l.id == id }

  // The shift a use case will write is that of the commitment it read.
  ghost predicate ShiftOf(p: Pending, read: Option<Sla>) {
    p.Ready? && p.intent.End? && p.shifted == ShiftForHold(read, p.intent.since, p.intent.now, p.cal)
  }

  lemma ReadyBefore(w: World, l: Label, w': World, id: nat)
    requires Steps(w, l, w') && id in w'.pending && w'.pending[id].Ready?
    ensures if IsSlaRead(l, id) then ShiftOf(w'.pending[id], w.stored.sla) else id in w.pending && w.pending[id] == w'.pending[id]
  {
  }

  lemma {:induction false} SlaWasRead(trace: seq<World>, labels: seq<Label>, k: nat, id: nat) returns (r: nat)
    requires IsRun(trace, labels) && k < |trace| && id in trace[k].pending && trace[k].pending[id].Ready?
    ensures SlaReadAt(labels, r, k, id) && ShiftOf(trace[k].pending[id], trace[r].stored.sla)
    decreases k
  {
    assert StepAt(trace, labels, k - 1);
    ReadyBefore(trace[k - 1], labels[k - 1], trace[k], id);
    if IsSlaRead(labels[k - 1], id) {
      return k - 1;
    }
    r := SlaWasRead(trace, labels, k - 1, id);
  }

  lemma SlaReadOnce(labels: seq<Label>, r: nat, q: nat, k: nat, id: nat)
    requires SlaReadAt(labels, r, k, id) && SlaReadAt(labels, q, k, id)
    ensures r == q
  {
  }

  lemma OtherStepsKeepSla(w: World, l: Label, w': World)
    requires Steps(w, l, w') && !Ends(w, l)
    ensures w'.stored.sla == w.stored.sla && w'.ended == w.ended && w'.initial == w.initial
  {
  }

  lemma {:induction false} SlaStays(trace: seq<World>, labels: seq<Label>, r: nat, k: nat)
    requires IsRun(trace, labels) && r <= k < |trace| && forall m :: r <= m < k ==> !EndsAt(trace, labels, m)
    ensures trace[k].stored.sla == trace[r].stored.sla
    decreases k - r
  {
    if r < k {
      SlaStays(trace, labels, r, k - 1);
      assert StepAt(trace, labels, k - 1) && !EndsAt(trace, labels, k - 1);
      OtherStepsKeepSla(trace[k - 1], labels[k - 1], trace[k]);
    }
  }

  // A ticket has a commitment for its whole life, or never.
  ghost predicate SameKind(w: World, some: bool) {
    && w.stored.sla.Some? == some
    && forall id :: id in w.pending && w.pending[id].Ready? ==> w.pending[id].shifted.Some? == some
  }

  lemma StaysSameKind(w: World, l: Label, w': World, some: bool)
    requires SameKind(w, some) && Steps(w, l, w')
    ensures SameKind(w', some)
  {
  }

  lemma {:induction false} KindStays(trace: seq<World>, labels: seq<Label>, n: nat)
    requires IsRun(trace, labels) && n < |trace|
    ensures SameKind(trace[n], trace[0].stored.sla.Some?)
  {
    if n > 0 {
      KindStays(trace, labels, n - 1);
      assert StepAt(trace, labels, n - 1);
      StaysSameKind(trace[n - 1], labels[n - 1], trace[n], trace[0].stored.sla.Some?);
    }
  }

  lemma EndCommits(w: World, l: Label, w': World)
    requires Commits(w) && Ends(w, l) && Steps(w, l, w') && SameKind(w, w.stored.sla.Some?)
    ensures var p := w.pending[l.id];
            Commits(w') <==> p.shifted == ShiftForHold(w.stored.sla, p.intent.since, p.intent.now, p.cal)
  {
    var p := w.pending[l.id];
    var e := Ended(p.intent.since, p.intent.now, p.cal);
    assert w'.ended == w.ended + [e] && (w.ended + [e])[..|w.ended|] == w.ended;
    assert w'.stored.sla == (if p.shifted.Some? then p.shifted else w.stored.sla);
  }

  // The step ends a hold with a commitment read before another end.
  ghost predicate LateAt(trace: seq<World>, labels: seq<Label>, k: nat) {
    EndsAt(trace, labels, k) && exists r: nat, m: nat :: SlaReadAt(labels, r, k, labels[k].id) && r < m < k && EndsAt(trace, labels, m)
  }

  // The write that ends a hold keeps the commitment if and only if the commitment it
  // read and the stored one shift to the same.  They are the same unless another end
  // came in between.
  lemma CommitmentKeptIff(trace: seq<World>, labels: seq<Label>, r: nat, k: nat)
    requires IsRun(trace, labels) && EndsAt(trace, labels, k) && SlaReadAt(labels, r, k, labels[k].id) && Commits(trace[k])
    ensures var p := trace[k].pending[labels[k].id];
            Commits(trace[k + 1]) <==>
              ShiftForHold(trace[r].stored.sla, p.intent.since, p.intent.now, p.cal) ==
              ShiftForHold(trace[k].stored.sla, p.intent.since, p.intent.now, p.cal)
    ensures !Commits(trace[k + 1]) ==> LateAt(trace, labels, k)
  {
    var q := SlaWasRead(trace, labels, k, labels[k].id);
    SlaReadOnce(labels, r, q, k, labels[k].id);
    assert StepAt(trace, labels, k);
    KindStays(trace, labels, k);
    EndCommits(trace[k], labels[k], trace[k + 1]);
    if !LateAt(trace, labels, k) {
      assert !EndsAt(trace, labels, r);
      SlaStays(trace, labels, r, k);
    }
  }

  // Whatever instants repeat, the commitment is shifted exactly once per ended hold as
  // long as no end is late.
  lemma {:induction false} CommitmentKept(trace: seq<World>, labels: seq<Label>, n: nat)
    requires IsRun(trace, labels) && n < |trace| && forall k :: 0 <= k < n ==> !LateAt(trace, labels, k)
    ensures Commits(trace[n])
  {
    if n > 0 {
      CommitmentKept(trace, labels, n - 1);
      assert StepAt(trace, labels, n - 1);
      if EndsAt(trace, labels, n - 1) {
        var r := SlaWasRead(trace, labels, n - 1, labels[n - 1].id);
        CommitmentKeptIff(trace, labels, r, n - 1);
      } else {
        OtherStepsKeepSla(trace[n - 1], labels[n - 1], trace[n]);
      }
    }
  }

  lemma {:induction false} HistoryGrows(trace: seq<World>, labels: seq<Label>, m: nat, k: nat)
    requires IsRun(trace, labels) && m <= k < |trace|
    ensures trace[m].begun <= trace[k].begun && trace[m].ended <= trace[k].ended
    decreases k - m
  {
    if m < k {
      HistoryGrows(trace, labels, m, k - 1);
      assert StepAt(trace, labels, k - 1);
    }
  }

  // An end is late only after a hold began at an instant another hold had begun at.
  lemma LateNeedsReuse(trace: seq<World>, labels: seq<Label>, k: nat)
    requires IsRun(trace, labels) && LateAt(trace, labels, k)
    ensures exists i :: 0 <= i < k && !FreshHold(trace[i], labels[i])
  {
    if forall i :: 0 <= i < k ==> FreshHold(trace[i], labels[i]) {
      var r: nat, m: nat :| SlaReadAt(labels, r, k, labels[k].id) && r < m < k && EndsAt(trace, labels, m);
      var since := trace[k].pending[labels[k].id].intent.since;
      AimedAtRead(trace, labels, r, k);
      EveryRunIsSafe(trace, labels, m);
      EveryRunIsSafe(trace, labels, k);
      HistoryGrows(trace, labels, r, m);
      HistoryGrows(trace, labels, m + 1, k);
      assert StepAt(trace, labels, m);
      EndedGrows(trace, labels, m, k, since);
      assert false;
    }
  }

  // The hold a use case means to end had begun when it read the commitment.
  lemma AimedAtRead(trace: seq<World>, labels: seq<Label>, r: nat, k: nat)
    requires IsRun(trace, labels) && k < |labels| && EndsAt(trace, labels, k) && SlaReadAt(labels, r, k, labels[k].id)
    requires forall i :: 0 <= i < k ==> FreshHold(trace[i], labels[i])
    ensures trace[k].pending[labels[k].id].intent.since in trace[r].begun
  {
    var id := labels[k].id;
    EveryRunIsSafe(trace, labels, r);
    assert StepAt(trace, labels, r);
    assert SafePending(trace[r], trace[r].pending[id]);
    SameIntent(trace, labels, r + 1, k, id);
  }

  lemma {:induction false} SameIntent(trace: seq<World>, labels: seq<Label>, j: nat, k: nat, id: nat)
    requires IsRun(trace, labels) && j <= k < |trace| && id in trace[k].pending && trace[k].pending[id].Ready?
    requires forall m :: j <= m < k ==> !IsSlaRead(labels[m], id)
    ensures id in trace[j].pending && trace[j].pending[id] == trace[k].pending[id]
    decreases k - j
  {
    if j < k {
      assert StepAt(trace, labels, k - 1);
      ReadyBefore(trace[k - 1], labels[k - 1], trace[k], id);
      SameIntent(trace, labels, j, k - 1, id);
    }
  }

  lemma EndedGrows(trace: seq<World>, labels: seq<Label>, m: nat, k: nat, since: Instant)
    requires m < k < |trace| && StepAt(trace, labels, m) && EndsAt(trace, labels, m) && Safe(trace[m]) && since in trace[m].begun
    requires trace[m + 1].ended <= trace[k].ended
    ensures since in EndedAt(trace[k].ended)
  {
    var w, w' := trace[m], trace[m + 1];
    var p := w.pending[labels[m].id];
    var e := Ended(p.intent.since, p.intent.now, p.cal);
    assert w'.ended == w.ended + [e];
    EndedAppend(w.ended, e);
    assert since in EndedAt(w'.ended);
    var i :| 0 <= i < |w'.ended| && w'.ended[i].since == since;
    assert trace[k].ended[i].since == since;
  }

  // ---- Such a run --------------------------------------------------------------------

  // The clock reading a decision was taken at.
  function Clock(i: Intent): Option<Instant> {
    match i
    case Begin(t) => Some(t.updatedAt)
    case Plain(t) => Some(t.updatedAt)
    case End(_, _, now, _) => Some(now)
    case JustComment => None
  }

  // Decisions are taken on a clock that never goes back.
  predicate Forward(labels: seq<Label>) {
    forall i, j :: 0 <= i < j < |labels| && labels[i].Decide? && labels[j].Decide? &&
                   Clock(labels[i].intent).Some? && Clock(labels[j].intent).Some? ==>
      Clock(labels[i].intent).value <= Clock(labels[j].intent).value
  }

  function Row(hold: Option<Instant>, at: Instant): TicketRow {
    TicketRow(1, Some(7), Some(8), None, InProgress, None, None, hold, at)
  }

  function HoursElapsed(): Calendar { Calendar((a: int, b: int) => b - a, (a: int, n: int) => a + n) }
  function Due(at: Instant): Option<Sla> { Some(Sla(None, Some(at))) }
  function Hold(): Intent { Begin(Row(Some(10), 10)) }
  function Resume(at: Instant): Intent { End(Row(None, at), 10, at, false) }
  function Shifted(at: Instant): Pending { Ready(Resume(at), Due(90 + at), HoursElapsed()) }

  // Two agents read the ticket and decide a hold at 10; the first writes.  A resume
  // decided at 15 reads the commitment, a second one decided at 20 writes; then the
  // other agent's hold lands, and the first resume ends it.
  function SameSecond(k: nat): World {
    var free := World(Stored(Row(None, 5), Due(100), true, 0), map[], Due(100), {}, [], 0);
    var held := World(Stored(Row(Some(10), 10), Due(100), true, 0), map[2 := Decided(Hold())], Due(100), {10}, [], 0);
    var freed := World(Stored(Row(None, 20), Due(110), true, 0), map[2 := Decided(Hold()), 3 := Shifted(15)], Due(100), {10},
                       [Ended(10, 20, HoursElapsed())], 0);
    if k == 0 then free
    else if k == 1 then free.(pending := map[1 := Loaded(Row(None, 5))])
    else if k == 2 then free.(pending := map[1 := Loaded(Row(None, 5)), 2 := Loaded(Row(None, 5))])
    else if k == 3 then free.(pending := map[1 := Decided(Hold()), 2 := Loaded(Row(None, 5))])
    else if k == 4 then free.(pending := map[1 := Decided(Hold()), 2 := Decided(Hold())])
    else if k == 5 then held
    else if k == 6 then held.(pending := held.pending[3 := Loaded(Row(Some(10), 10))])
    else if k == 7 then held.(pending := held.pending[3 := Decided(Resume(15))])
    else if k == 8 then held.(pending := held.pending[3 := Shifted(15)])
    else if k == 9 then held.(pending := held.pending[3 := Shifted(15)][4 := Loaded(Row(Some(10), 10))])
    else if k == 10 then held.(pending := held.pending[3 := Shifted(15)][4 := Decided(Resume(20))])
    else if k == 11 then held.(pending := held.pending[3 := Shifted(15)][4 := Shifted(20)])
    else if k == 12 then freed
    else if k == 13 then freed.(stored := freed.stored.(row := Row(Some(10), 10)), pending := map[3 := Shifted(15)])
    else World(Stored(Row(None, 15), Due(105), true, 0), map[], Due(100), {10},
               [Ended(10, 20, HoursElapsed()), Ended(10, 15, HoursElapsed())], 0)
  }

  function SameSecondLabels(): seq<Label> {
    [Read(1), Read(2), Decide(1, Hold()), Decide(2, Hold()), Write(1),
     Read(3), Decide(3, Resume(15)), ReadSla(3, HoursElapsed()),
     Read(4), Decide(4, Resume(20)), ReadSla(4, HoursElapsed()), Write(4), Write(2), Write(3)]
  }

  lemma SameSecondReads(k: nat)
    requires k < 11 && k != 4
    ensures Steps(SameSecond(k), SameSecondLabels()[k], SameSecond(k + 1))
  {
    if k == 2 || k == 3 {
      assert BeginIntent(Row(None, 5), true, 10) == Some(Hold());
    } else if k == 6 || k == 9 {
      var at := if k == 6 then 15 else 20;
      assert ResumeIntent(Row(Some(10), 10), at) == Some(Resume(at));
    }
  }

  lemma SameSecondWrites(k: nat)
    requires k == 4 || 11 <= k < 14
    ensures Steps(SameSecond(k), SameSecondLabels()[k], SameSecond(k + 1))
  {
    var w := SameSecond(k);
    if k == 4 {
      assert Without(w.pending, 1) == map[2 := Decided(Hold())];
    } else if k == 11 {
      assert Without(w.pending, 4) == map[2 := Decided(Hold()), 3 := Shifted(15)];
      assert w.ended + [Ended(10, 20, HoursElapsed())] == [Ended(10, 20, HoursElapsed())];
    } else if k == 12 {
      assert Without(w.pending, 2) == map[3 := Shifted(15)];
    } else {
      assert Without(w.pending, 3) == map[];
    }
  }

  function SameSecondRun(): seq<World> { seq(15, (k: nat) => SameSecond(k)) }

  lemma SameSecondIsRun()
    ensures IsRun(SameSecondRun(), SameSecondLabels())
  {
    forall k | 0 <= k < 14
      ensures StepAt(SameSecondRun(), SameSecondLabels(), k)
    {
      if k < 11 && k != 4 {
        SameSecondReads(k);
      } else {
        SameSecondWrites(k);
      }
    }
  }

  lemma ShiftedTwice()
    ensures AfterHolds(Due(100), [Ended(10, 20, HoursElapsed()), Ended(10, 15, HoursElapsed())]) == Due(115)
  {
    var ended := [Ended(10, 20, HoursElapsed()), Ended(10, 15, HoursElapsed())];
    assert ended[..1] == [ended[0]] && ended[..1][..0] == [];
    assert AfterHolds(Due(100), ended[..1]) == Due(110);
  }

  // The run ends two holds that began at one instant, and shifts the commitment once.
  ghost predicate LosesAShift(end: World) {
    && |end.ended| == 2 && end.ended[0].since == end.ended[1].since
    && end.stored.sla == Due(105) && AfterHolds(end.initial, end.ended) == Due(115)
  }

  // Two holds in one second, on a clock that never goes back.
  lemma SameInstantLosesAShift()
    ensures exists trace: seq<World>, labels: seq<Label> ::
              IsRun(trace, labels) && Forward(labels) && LosesAShift(trace[|labels|])
  {
    SameSecondIsRun();
    assert LosesAShift(SameSecond(14)) by {
      ShiftedTwice();
    }
    OnClock();
    assert SameSecondRun()[|SameSecondLabels()|] == SameSecond(14);
  }

  lemma OnClock()
    ensures Forward(SameSecondLabels())
  {
  }

  // ---- Replies -------------------------------------------------------------------------

  // A reply always adds its comment; it changes anything else if and only if the hold
  // it read is still the stored one.
  lemma ReplyEndsHoldIff(trace: seq<World>, labels: seq<Label>, k: nat, id: nat)
    requires IsRun(trace, labels) && k < |labels| && labels[k] == Write(id) && id in trace[k].pending
    requires trace[k].pending[id].Ready? && trace[k].pending[id].intent.End? && trace[k].pending[id].intent.reply
    ensures trace[k + 1].stored.comments == trace[k].stored.comments + 1 && trace[k + 1].cursor == trace[k].cursor
    ensures trace[k + 1].stored == trace[k].stored.(comments := trace[k].stored.comments + 1) <==>
            trace[k].stored.row.onHoldSince != Some(trace[k].pending[id].intent.since)
  {
    assert StepAt(trace, labels, k);
    RunsStayFree(trace, labels, k);
  }

  // ---- A write that lost a race -----------------------------------------------------

  ghost predicate Free(w: World) {
    TerminalIsFree(w.stored.row) && forall id :: id in w.pending ==> FreePending(w.pending[id])
  }

  ghost predicate FreePending(p: Pending) {
    if p.Loaded? then TerminalIsFree(p.row) else SafeIntent(p.intent) && (p.Ready? ==> p.intent.End?)
  }

  lemma StaysFree(w: World, l: Label, w': World)
    requires Free(w) && Steps(w, l, w')
    ensures Free(w')
  {
    if l.Decide? {
      IntentsAreSafe(w.pending[l.id].row, l.intent);
    } else if l.Complete? {
      PersistedKeepsHold(w.stored.row, l.plan.ops, l.pick);
      NoPlanClosesOverHold(l.f, l.plan, l.pick);
    }
  }

  // No terminal ticket is on hold, even if two holds start at the same instant.
  lemma {:induction false} RunsStayFree(trace: seq<World>, labels: seq<Label>, n: nat)
    requires IsRun(trace, labels) && n < |trace|
    ensures Free(trace[n])
  {
    if n > 0 {
      RunsStayFree(trace, labels, n - 1);
      assert StepAt(trace, labels, n - 1);
      StaysFree(trace[n - 1], labels[n - 1], trace[n]);
    }
  }

  // The use case `id` that is under way at state `k` read the ticket at step `c`.
  predicate ReadAt(labels: seq<Label>, c: nat, k: nat, id: nat) {
    && c < k <= |labels| && labels[c] == Read(id)
    && forall m :: c < m < k ==> labels[m] != Read(id)
  }

  ghost predicate DecidedOn(read: TicketRow, p: Pending) {
    if p.Loaded? then p.row == read else Intends(read, p.intent)
  }

  lemma {:induction false} DecidesOnWhatItRead(trace: seq<World>, labels: seq<Label>, c: nat, k: nat, id: nat)
    requires IsRun(trace, labels) && ReadAt(labels, c, k, id) && id in trace[k].pending
    ensures DecidedOn(trace[c].stored.row, trace[k].pending[id])
    decreases k
  {
    assert StepAt(trace, labels, k - 1);
    if c < k - 1 {
      StillPending(trace[k - 1], labels[k - 1], trace[k], id);
      DecidesOnWhatItRead(trace, labels, c, k - 1, id);
      StepDecides(trace[c].stored.row, trace[k - 1], labels[k - 1], trace[k], id);
    }
  }

  lemma StillPending(w: World, l: Label, w': World, id: nat)
    requires Steps(w, l, w') && id in w'.pending && l != Read(id)
    ensures id in w.pending
  {
  }

  lemma StepDecides(read: TicketRow, w: World, l: Label, w': World, id: nat)
    requires Steps(w, l, w') && id in w.pending && id in w'.pending && DecidedOn(read, w.pending[id])
    ensures DecidedOn(read, w'.pending[id])
  {
  }

  // The use case leaves the state as it read it: a new hold, an assignment, an edit.
  predicate KeepsState(read: TicketRow, i: Intent) { (i.Begin? || i.Plain?) && i.ticket.state == read.state }

  // What a write does to a terminal ticket, whatever its use case read.  Ending a hold
  // and commenting leave the state alone.  A use case that meant to keep the state
  // takes the ticket out of it if and only if the state it read was another one.  One
  // that moved the ticket does what it decided: a legal move when it read this state,
  // any state at all when it did not.
  lemma StaleWriteIff(trace: seq<World>, labels: seq<Label>, c: nat, k: nat, id: nat)
    requires IsRun(trace, labels) && ReadAt(labels, c, k, id) && k < |labels| && labels[k] == Write(id)
    requires IsClosed(trace[k].stored.row.state) && id in trace[k].pending && !trace[k].pending[id].Loaded?
    ensures var read, before, after := trace[c].stored.row, trace[k].stored.row, trace[k + 1].stored.row;
            var i := trace[k].pending[id].intent;
            && (i.End? || i.JustComment? ==> after.state == before.state)
            && (KeepsState(read, i) ==> (after.state != before.state <==> before.state != read.state))
            && (i.Begin? || i.Plain? ==> after.state == i.ticket.state)
            && (read.state == before.state != after.state ==> Legal(before.state, after.state))
  {
    assert StepAt(trace, labels, k);
    RunsStayFree(trace, labels, k);
    DecidesOnWhatItRead(trace, labels, c, k, id);
    WriteOnTerminal(trace[k], id, trace[k + 1]);
    if trace[k].pending[id].intent.Begin? || trace[k].pending[id].intent.Plain? {
      MovesAreLegal(trace[c].stored.row, trace[k].pending[id].intent);
    }
  }

  lemma WriteOnTerminal(w: World, id: nat, w': World)
    requires id in w.pending && w' == Written(w, id) && IsClosed(w.stored.row.state) && TerminalIsFree(w.stored.row)
    requires !w.pending[id].Loaded? && (w.pending[id].Ready? ==> w.pending[id].intent.End?)
    ensures var i := w.pending[id].intent;
            w'.stored.row.state == if i.Begin? || i.Plain? then i.ticket.state else w.stored.row.state
  {
  }

  lemma MovesAreLegal(read: TicketRow, i: Intent)
    requires Intends(read, i) && (i.Begin? || i.Plain?)
    ensures i.ticket.state == read.state || Legal(read.state, i.ticket.state)
  {
  }

  // Two use cases read a ticket in progress; one resolves it, then the other writes:
  // a new hold, or an edit of another field.
  function Undo(k: nat, hold: bool): World {
    var open := Row(None, 10);
    var resolved := open.(state := Resolved, resolvedAt := Some(20), updatedAt := 20);
    var start := World(Stored(open, None, false, 0), map[], None, {}, [], 0);
    var done := start.(stored := Stored(resolved, None, false, 0));
    if k == 0 then start
    else if k == 1 then start.(pending := map[1 := Loaded(open)])
    else if k == 2 then start.(pending := map[1 := Loaded(open), 2 := Loaded(open)])
    else if k == 3 then start.(pending := map[1 := Loaded(open), 2 := Decided(Plain(resolved))])
    else if k == 4 then done.(pending := map[1 := Loaded(open)])
    else if k == 5 then done.(pending := map[1 := Decided(Second(hold))])
    else start.(stored := Stored(Second(hold).ticket, None, false, 0), begun := if hold then {30} else {})
  }

  function Second(hold: bool): Intent {
    if hold then Begin(Row(Some(30), 30)) else Plain(Row(None, 30).(assignee := Some(9)))
  }

  function UndoLabels(hold: bool): seq<Label> {
    var resolved := Row(None, 10).(state := Resolved, resolvedAt := Some(20), updatedAt := 20);
    [Read(1), Read(2), Decide(2, Plain(resolved)), Write(2), Decide(1, Second(hold)), Write(1)]
  }

  lemma UndoReads(k: nat, hold: bool)
    requires k < 3
    ensures Steps(Undo(k, hold), UndoLabels(hold)[k], Undo(k + 1, hold))
  {
    assert k == 2 ==> MoveIntent(Row(None, 10), Resolved, true, 20) == Some(Plain(Undo(4, hold).stored.row));
  }

  lemma UndoWrites(k: nat, hold: bool)
    requires 3 <= k < 6
    ensures Steps(Undo(k, hold), UndoLabels(hold)[k], Undo(k + 1, hold))
  {
    var open := Row(None, 10);
    if k == 3 {
      assert Without(Undo(3, hold).pending, 2) == map[1 := Loaded(open)];
    } else if k == 4 && hold {
      assert BeginIntent(open, true, 30) == Some(Second(true));
    } else if k == 5 {
      assert Without(Undo(5, hold).pending, 1) == map[];
    }
  }

  // The resolution is undone without anybody having reopened the ticket.
  lemma StaleWriteUndoesAResolution(hold: bool)
    ensures exists trace: seq<World>, labels: seq<Label> ::
              && IsRun(trace, labels) && |labels| == 6 && ReadAt(labels, 0, 5, 1) && labels[5] == Write(1)
              && trace[5].stored.row.state == Resolved
              && trace[6].stored.row.state == InProgress && trace[6].stored.row.resolvedAt.None?
              && (trace[6].stored.row.OnHold() <==> hold)
  {
    var trace := seq(7, (k: nat) => Undo(k, hold));
    var labels := UndoLabels(hold);
    forall k | 0 <= k < |labels|
      ensures StepAt(trace, labels, k)
    {
      if k < 3 {
        UndoReads(k, hold);
      } else {
        UndoWrites(k, hold);
      }
    }
    assert IsRun(trace, labels);
  }

  // ---- Open tickets ----------------------------------------------------------------------

  // The write replaces the stored row.
  predicate LandsRow(w: World, id: nat)
    requires id in w.pending
  {
    match w.pending[id]
    case Loaded(_) => false
    case Decided(Begin(_)) => !w.stored.row.OnHold()
    case Decided(Plain(t)) => !(IsClosed(t.state) && w.stored.row.OnHold())
    case Decided(_) => false
    case Ready(End(_, since, _, _), _, _) => w.stored.row.onHoldSince == Some(since)
    case Ready(_, _, _) => false
  }

  lemma RowWritten(w: World, id: nat)
    requires id in w.pending
    ensures Written(w, id).cursor == w.cursor
    ensures var after := Written(w, id).stored.row;
            if !LandsRow(w, id) then after == w.stored.row
            else var i := w.pending[id].intent;
                 after == if i.Plain? then i.ticket.(onHoldSince := w.stored.row.onHoldSince) else i.ticket
  {
  }

  // A new hold, a resume and a reply mean to leave the holder as they read it, and the
  // state too, but for a terminal move that ends the hold.
  lemma KeptFields(read: TicketRow, i: Intent)
    requires Intends(read, i) && (i.Begin? || i.End?)
    ensures i.ticket.assignee == read.assignee && i.ticket.requester == read.requester && i.ticket.pin == read.pin
    ensures i.Begin? || (i.End? && i.reply) || !IsClosed(i.ticket.state) ==> i.ticket.state == read.state
  {
  }

  // What a write does to any ticket, whatever its use case read.  When it lands, the
  // state, the holder and the pinned workflow become the ones it carries; so where the
  // use case meant to keep what it read, the write reverts a change if and only if
  // there was one since the read.  The run's cursor stays where it is.
  lemma StaleWriteReverts(trace: seq<World>, labels: seq<Label>, c: nat, k: nat, id: nat)
    requires IsRun(trace, labels) && ReadAt(labels, c, k, id) && k < |labels| && labels[k] == Write(id) && id in trace[k].pending
    ensures var read, before, after := trace[c].stored.row, trace[k].stored.row, trace[k + 1].stored.row;
            && trace[k + 1].cursor == trace[k].cursor
            && (!LandsRow(trace[k], id) ==> after == before)
            && (LandsRow(trace[k], id) ==>
                  var i := trace[k].pending[id].intent;
                  && (i.ticket.state == read.state ==> (after.state != before.state <==> before.state != read.state))
                  && (i.ticket.assignee == read.assignee ==> (after.assignee != before.assignee <==> before.assignee != read.assignee))
                  && (i.ticket.pin == read.pin ==> (after.pin != before.pin <==> before.pin != read.pin))
                  && (i.Begin? || i.End? ==> i.ticket.assignee == read.assignee && i.ticket.pin == read.pin)
                  && (i.Begin? || (i.End? && (i.reply || !IsClosed(i.ticket.state))) ==> i.ticket.state == read.state))
  {
    assert StepAt(trace, labels, k);
    RowWritten(trace[k], id);
    DecidesOnWhatItRead(trace, labels, c, k, id);
    if LandsRow(trace[k], id) && (trace[k].pending[id].intent.Begin? || trace[k].pending[id].intent.End?) {
      KeptFields(trace[c].stored.row, trace[k].pending[id].intent);
    }
  }

  // The requester 7 replies to a new ticket on hold; an agent claims it between the
  // reply's read and its write.
  const Waiting: TicketRow := TicketRow(1, Some(7), None, Some(3), New, None, None, Some(0), 0)

  function ClaimFirst(): Definition { [AssignToDesk(Some(DeskConfig(1, Claim))), ManualTask(Some("work"))] }

  function ClaimFacts(): StoreFacts { StoreFacts(Waiting, Run(0, Active, 0), ClaimFirst(), {7, 8}, {8}, desk => {8}) }

  function ClaimPlan(): MutationPlan {
    MutationPlan(3, ClaimFirst(), Some(7), None, 8, 0, Active, New,
                 [ClaimAssignment(0, 1, 8, None, 10), StateTransition(0, Move(New, InProgress, 10))],
                 1, Active, InProgress, Some(8))
  }

  function Claimed(): TicketRow { Waiting.(assignee := Some(8), state := InProgress, updatedAt := 10) }

  function Nobody(step: nat): UserId { 0 }

  lemma ClaimAccepted()
    ensures Accepts(ClaimFacts(), ClaimPlan(), Nobody)
    ensures WorkflowRuns.PersistedAll(Waiting, ClaimPlan().ops, Nobody) == Waiting.(assignee := Some(8), state := InProgress)
  {
    var f, plan := ClaimFacts(), ClaimPlan();
    var ops := plan.ops;
    assert 8 in f.Pool(1);
    assert ops[2..] == [] && ops[1..] == [ops[1]] && ops[1..][1..] == [];
    assert CheckedGroup(f, 8, Waiting, ClaimFirst()[0], 0, ops, Nobody) == Some(Group(2, Claimed()));
    assert CheckedGroups(f, 8, Claimed(), 1, ops[2..], Nobody) == Some(Checked(1, Claimed()));
  }

  function ReplyTo(): Intent { End(Waiting.(onHoldSince := None, updatedAt := 5), 0, 5, true) }

  function Overtaken(k: nat): World {
    var start := World(Stored(Waiting, None, true, 0), map[], None, {0}, [], 0);
    var claimed := start.(stored := start.stored.(row := Claimed()), cursor := 1);
    if k == 0 then start
    else if k == 1 then start.(pending := map[1 := Loaded(Waiting)])
    else if k == 2 then start.(pending := map[1 := Decided(ReplyTo())])
    else if k == 3 then start.(pending := map[1 := Ready(ReplyTo(), None, HoursElapsed())])
    else if k == 4 then claimed.(pending := map[1 := Ready(ReplyTo(), None, HoursElapsed())])
    else World(Stored(Waiting.(onHoldSince := None, updatedAt := 5), None, true, 1), map[], None, {0}, [Ended(0, 5, HoursElapsed())], 1)
  }

  function OvertakenLabels(): seq<Label> {
    [Read(1), Decide(1, ReplyTo()), ReadSla(1, HoursElapsed()), Complete(ClaimFacts(), ClaimPlan(), Nobody, Claimed()), Write(1)]
  }

  lemma OvertakenSteps(k: nat)
    requires k < 5
    ensures Steps(Overtaken(k), OvertakenLabels()[k], Overtaken(k + 1))
  {
    if k == 1 {
      assert ReplyIntent(Waiting, true, 7, 5) == ReplyTo();
    } else if k == 3 {
      ClaimAccepted();
    } else if k == 4 {
      assert Without(Overtaken(4).pending, 1) == map[];
    }
  }

  // The ticket is new and nobody's again, and the run has moved past the claim.
  lemma StaleReplyUndoesAClaim()
    ensures exists trace: seq<World>, labels: seq<Label> ::
              && IsRun(trace, labels) && |labels| == 5 && ReadAt(labels, 0, 4, 1) && labels[4] == Write(1)
              && trace[4].stored.row.state == InProgress && trace[4].stored.row.assignee == Some(8) && trace[4].cursor == 1
              && trace[5].stored.row.state == New && trace[5].stored.row.assignee.None? && trace[5].cursor == 1
  {
    var trace := seq(6, (k: nat) => Overtaken(k));
    var labels := OvertakenLabels();
    forall k | 0 <= k < |labels|
      ensures StepAt(trace, labels, k)
    {
      OvertakenSteps(k);
    }
    assert IsRun(trace, labels);
  }
}
