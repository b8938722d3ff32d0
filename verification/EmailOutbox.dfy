/**
Delivering notification emails at most once (internal/application/
notification_email.go over internal/adapters/sqlite/email_outbox_store.go): the
outbox, one sender's settlement of a claimed row, and every run of any number of
senders, stops and restarts.
*/
module EmailOutbox {
  import opened Core

  datatype Status = Pending | Sending | Sent | Skipped | Failed

  datatype Row = Row(status: Status, attempts: nat, next: Instant)

  type Rows = map<nat, Row>

  // The wait before each retry: a minute, five, fifteen, an hour, six hours.
  const Backoff: seq<int> := [60, 300, 900, 3600, 21600]

  predicate Settled(s: Status) { s == Sent || s == Skipped || s == Failed }

  // How one attempt ended: nothing to send, or what the mailer reported.
  datatype Outcome =
    | SkipIt
    | PrepareFailed
    | Accepted
    | Transient
    | Permanent
    | OutcomeUnknown

  // What an attempt does to the row it claimed, when it is still this sender's.
  function AfterAttempt(claimed: nat, o: Outcome, now: Instant): Row -> Row {
    (row: Row) =>
      if row.status != Sending then row
      else
        match o
        case SkipIt => row.(status := Skipped)
        case Accepted => row.(status := Sent, attempts := row.attempts + 1)
        case Permanent => row.(status := Failed, attempts := claimed + 1)
        case OutcomeUnknown => row.(status := Failed, attempts := claimed + 1)
        case _ =>
          if claimed + 1 > |Backoff| then row.(status := Failed, attempts := claimed + 1)
          else Row(Pending, claimed + 1, now + Backoff[claimed])
  }

  function Settle(rows: Rows, id: nat, change: Row -> Row): Rows {
    if id in rows then rows[id := change(rows[id])] else rows
  }

  function Abandoned(rows: Rows): Rows {
    map id | id in rows :: if rows[id].status == Sending then rows[id].(status := Failed) else rows[id]
  }

  function PendingSkipped(rows: Rows): Rows {
    map id | id in rows :: if rows[id].status == Pending then rows[id].(status := Skipped) else rows[id]
  }

  predicate Due(rows: Rows, id: nat, now: Instant) {
    id in rows && rows[id].status == Pending && rows[id].next <= now
  }

  function Claimed(rows: Rows, ids: set<nat>): Rows {
    map id | id in rows :: if id in ids && rows[id].status == Pending then rows[id].(status := Sending) else rows[id]
  }

  class Outbox {
    var rows: Rows

    constructor ()
      ensures rows == map[]
    {
      rows := map[];
    }

    method AbandonInFlight()
      modifies this
      ensures rows == Abandoned(old(rows))
    {
      rows := map id | id in rows :: if rows[id].status == Sending then rows[id].(status := Failed) else rows[id];
    }

    method SkipPending()
      modifies this
      ensures rows == PendingSkipped(old(rows))
    {
      rows := map id | id in rows :: if rows[id].status == Pending then rows[id].(status := Skipped) else rows[id];
    }

    // Takes each candidate that is still pending, and only those.
    method Claim(due: seq<nat>) returns (taken: seq<nat>)
      modifies this
      ensures rows == Claimed(old(rows), set id | id in due)
      ensures forall id :: id in taken <==> id in due && id in old(rows) && old(rows)[id].status == Pending
      ensures forall i, j :: 0 <= i < j < |taken| ==> taken[i] != taken[j]
    {
      taken := [];
      ghost var before := rows;
      for i := 0 to |due|
        invariant rows.Keys == before.Keys
        invariant forall id :: id in before ==>
                    rows[id] == if id in due[..i] && before[id].status == Pending then before[id].(status := Sending) else before[id]
        invariant forall id :: id in taken <==> id in due[..i] && id in before && before[id].status == Pending
        invariant forall j, k :: 0 <= j < k < |taken| ==> taken[j] != taken[k]
      {
        var id := due[i];
        assert due[..i + 1] == due[..i] + [id];
        if id in rows && rows[id].status == Pending {
          rows := rows[id := rows[id].(status := Sending)];
          taken := taken + [id];
        }
      }
      assert due[..|due|] == due;
    }

    method MarkSent(id: nat) returns (ok: bool)
      modifies this
      ensures ok == (id in old(rows) && old(rows)[id].status == Sending)
      ensures rows == if ok then old(rows)[id := old(rows)[id].(status := Sent, attempts := old(rows)[id].attempts + 1)] else old(rows)
    {
      ok := id in rows && rows[id].status == Sending;
      if ok {
        rows := rows[id := rows[id].(status := Sent, attempts := rows[id].attempts + 1)];
      }
    }

    method MarkSkipped(id: nat) returns (ok: bool)
      modifies this
      ensures ok == (id in old(rows) && old(rows)[id].status == Sending)
      ensures rows == if ok then old(rows)[id := old(rows)[id].(status := Skipped)] else old(rows)
    {
      ok := id in rows && rows[id].status == Sending;
      if ok {
        rows := rows[id := rows[id].(status := Skipped)];
      }
    }

    method MarkFailed(id: nat, attempts: nat) returns (ok: bool)
      modifies this
      ensures ok == (id in old(rows) && old(rows)[id].status == Sending)
      ensures rows == if ok then old(rows)[id := old(rows)[id].(status := Failed, attempts := attempts)] else old(rows)
    {
      ok := id in rows && rows[id].status == Sending;
      if ok {
        rows := rows[id := rows[id].(status := Failed, attempts := attempts)];
      }
    }

    method Reschedule(id: nat, attempts: nat, next: Instant) returns (ok: bool)
      modifies this
      ensures ok == (id in old(rows) && old(rows)[id].status == Sending)
      ensures rows == if ok then old(rows)[id := Row(Pending, attempts, next)] else old(rows)
    {
      ok := id in rows && rows[id].status == Sending;
      if ok {
        rows := rows[id := Row(Pending, attempts, next)];
      }
    }
  }

  // One claimed row: compose, send, settle.
  method Deliver(outbox: Outbox, id: nat, claimed: nat, o: Outcome, now: Instant) returns (ok: bool)
    modifies outbox
    ensures outbox.rows == Settle(old(outbox.rows), id, AfterAttempt(claimed, o, now))
    ensures ok == (id in old(outbox.rows) && old(outbox.rows)[id].status == Sending)
  {
    match o {
      case SkipIt => ok := outbox.MarkSkipped(id);
      case Accepted => ok := outbox.MarkSent(id);
      case _ => ok := FailAttempt(outbox, id, claimed, o, now);
    }
  }

  method FailAttempt(outbox: Outbox, id: nat, claimed: nat, cause: Outcome, now: Instant) returns (ok: bool)
    requires cause != SkipIt && cause != Accepted
    modifies outbox
    ensures outbox.rows == Settle(old(outbox.rows), id, AfterAttempt(claimed, cause, now))
    ensures ok == (id in old(outbox.rows) && old(outbox.rows)[id].status == Sending)
  {
    var attempts := claimed + 1;
    var final := cause == Permanent || cause == OutcomeUnknown || attempts > |Backoff|;
    if final {
      ok := outbox.MarkFailed(id, attempts);
      return;
    }
    ok := outbox.Reschedule(id, attempts, now + Backoff[attempts - 1]);
  }

  // ---- Runs -------------------------------------------------------------------------

  // A sender's hold on one row: claimed, or attempted and still to be settled.
  datatype Claim = Claim(id: nat, attempts: nat, done: Option<Outcome>)

  // `accepted` and `attempted` count what the mail server took and how often it was
  // asked; `known` are the notifications that ever existed.
  datatype World = World(
    rows: Rows,
    claims: map<nat, Claim>,
    known: set<nat>,
    accepted: map<nat, nat>,
    attempted: map<nat, nat>)

  datatype Label =
    | Enqueue(id: nat, at: Instant)
    | Take(id: nat, claim: nat, now: Instant)
    // The attempt, what the sender concluded, and whether the server took the message.
    | Attempt(claim: nat, outcome: Outcome, took: bool)
    | SettleRow(claim: nat, now: Instant)
    | Recover
    | SkipAll
    | Forget(id: nat)
    | Stop(claims: set<nat>)

  predicate Asks(o: Outcome) { o != SkipIt && o != PrepareFailed }

  // The one assumption: a failure reported as worth retrying was not an acceptance.
  predicate Honest(l: Label) {
    l.Attempt? ==> (l.outcome == Transient || !Asks(l.outcome) ==> !l.took)
  }

  function Bump(m: map<nat, nat>, id: nat, more: bool): map<nat, nat>
    requires id in m
  {
    if more then m[id := m[id] + 1] else m
  }

  predicate Consistent(w: World) {
    w.accepted.Keys == w.known == w.attempted.Keys && (forall c :: c in w.claims ==> w.claims[c].id in w.known)
  }

  predicate Steps(w: World, l: Label, w': World)
    requires Consistent(w)
  {
    match l
    case Enqueue(id, at) =>
      id !in w.known &&
      w' == w.(rows := w.rows[id := Row(Pending, 0, at)], known := w.known + {id},
               accepted := w.accepted[id := 0], attempted := w.attempted[id := 0])
    case Take(id, c, now) =>
      && Due(w.rows, id, now) && c !in w.claims && id in w.known
      && w' == w.(rows := Claimed(w.rows, {id}), claims := w.claims[c := Claim(id, w.rows[id].attempts, None)])
    case Attempt(c, o, took) =>
      && c in w.claims && w.claims[c].done.None?
      && w' == w.(claims := w.claims[c := w.claims[c].(done := Some(o))],
                  accepted := Bump(w.accepted, w.claims[c].id, took),
                  attempted := Bump(w.attempted, w.claims[c].id, Asks(o)))
    case SettleRow(c, now) =>
      && c in w.claims && w.claims[c].done.Some?
      && w' == w.(rows := Settle(w.rows, w.claims[c].id, AfterAttempt(w.claims[c].attempts, w.claims[c].done.value, now)),
                  claims := w.claims - {c})
    case Recover => w' == w.(rows := Abandoned(w.rows))
    case SkipAll => w' == w.(rows := PendingSkipped(w.rows))
    case Forget(id) => w' == w.(rows := w.rows - {id})
    case Stop(cs) => w' == w.(claims := w.claims - cs)
  }

  predicate Initial(w: World) {
    w.rows == map[] && w.claims == map[] && w.known == {} && w.accepted == map[] && w.attempted == map[]
  }

  ghost predicate IsRun(trace: seq<World>, labels: seq<Label>) {
    && |trace| == |labels| + 1 && Initial(trace[0])
    && forall i :: 0 <= i < |labels| ==> StepAt(trace, labels, i)
  }

  ghost predicate StepAt(trace: seq<World>, labels: seq<Label>, i: nat) {
    MovesAt(trace, labels, i) && Honest(labels[i])
  }

  ghost predicate MovesAt(trace: seq<World>, labels: seq<Label>, i: nat) {
    i < |labels| && i + 1 < |trace| && Consistent(trace[i]) && Steps(trace[i], labels[i], trace[i + 1])
  }

  // What holds of one notification.
  ghost predicate RowOk(w: World, id: nat)
    requires Consistent(w) && id in w.known
  {
    && w.accepted[id] <= 1
    && w.attempted[id] <= |Backoff| + 1
    && (id in w.rows && !Settled(w.rows[id].status) ==> w.rows[id].attempts <= |Backoff|)
    // Nothing can send it again once it was accepted.
    && (id in w.rows && w.rows[id].status == Pending ==> w.accepted[id] == 0 && w.attempted[id] <= w.rows[id].attempts)
    && (id in w.rows && w.rows[id].status == Sending ==> w.attempted[id] <= w.rows[id].attempts + 1)
  }

  // A claim's row is this claim's alone until it is settled or given up.
  ghost predicate ClaimOk(w: World, c: nat)
    requires Consistent(w) && c in w.claims
  {
    var k := w.claims[c];
    && (k.id in w.rows ==> w.rows[k.id].status == Failed || (w.rows[k.id].status == Sending && w.rows[k.id].attempts == k.attempts))
    && k.attempts <= |Backoff|
    && (k.done.None? ==> w.accepted[k.id] == 0 && w.attempted[k.id] <= k.attempts)
    && (k.done.Some? && (k.done.value == Transient || !Asks(k.done.value)) ==> w.accepted[k.id] == 0)
    && w.attempted[k.id] <= k.attempts + 1
    && forall d :: d in w.claims && d != c ==> w.claims[d].id != k.id
  }

  ghost predicate Invariant(w: World) {
    && Consistent(w)
    && w.rows.Keys <= w.known
    && (forall id :: id in w.known ==> RowOk(w, id))
    && (forall c :: c in w.claims ==> ClaimOk(w, c))
  }

  lemma StepKeeps(w: World, l: Label, w': World)
    requires Invariant(w) && Steps(w, l, w') && Honest(l)
    ensures Invariant(w')
  {
    match l {
      case Enqueue(id, at) => EnqueueKeeps(w, l, w');
      case Take(id, c, now) => TakeKeeps(w, l, w');
      case Attempt(c, o, took) => AttemptKeeps(w, l, w');
      case SettleRow(c, now) => SettleKeeps(w, l, w');
      case _ => RestKeeps(w, l, w');
    }
  }

  lemma EnqueueKeeps(w: World, l: Label, w': World)
    requires Invariant(w) && l.Enqueue? && Steps(w, l, w')
    ensures Invariant(w')
  {
    forall id | id in w'.known
      ensures RowOk(w', id)
    {
      if id != l.id { assert RowOk(w, id); }
    }
    forall c | c in w'.claims
      ensures ClaimOk(w', c)
    {
      assert ClaimOk(w, c);
    }
  }

  lemma TakeKeeps(w: World, l: Label, w': World)
    requires Invariant(w) && l.Take? && Steps(w, l, w')
    ensures Invariant(w')
  {
    forall id | id in w'.known
      ensures RowOk(w', id)
    {
      assert RowOk(w, id);
    }
    forall c | c in w'.claims
      ensures ClaimOk(w', c)
    {
      if c != l.claim {
        assert ClaimOk(w, c);
      } else {
        assert RowOk(w, l.id);
        assert forall d :: d in w.claims ==> ClaimOk(w, d);
      }
    }
  }

  lemma AttemptKeeps(w: World, l: Label, w': World)
    requires Invariant(w) && l.Attempt? && Steps(w, l, w') && Honest(l)
    ensures Invariant(w')
  {
    assert ClaimOk(w, l.claim);
    forall id | id in w'.known
      ensures RowOk(w', id)
    {
      assert RowOk(w, id);
    }
    forall c | c in w'.claims
      ensures ClaimOk(w', c)
    {
      assert ClaimOk(w, c);
    }
  }

  lemma SettleKeeps(w: World, l: Label, w': World)
    requires Invariant(w) && l.SettleRow? && Steps(w, l, w')
    ensures Invariant(w')
  {
    assert ClaimOk(w, l.claim);
    forall id | id in w'.known
      ensures RowOk(w', id)
    {
      assert RowOk(w, id);
    }
    forall c | c in w'.claims
      ensures ClaimOk(w', c)
    {
      assert ClaimOk(w, c);
    }
  }

  lemma RestKeeps(w: World, l: Label, w': World)
    requires Invariant(w) && Steps(w, l, w') && (l.Recover? || l.SkipAll? || l.Forget? || l.Stop?)
    ensures Invariant(w')
  {
    forall id | id in w'.known
      ensures RowOk(w', id)
    {
      assert RowOk(w, id);
    }
    forall c | c in w'.claims
      ensures ClaimOk(w', c)
    {
      assert ClaimOk(w, c);
    }
  }

  // Over any run of passes, stops and restarts, by any number of senders: every
  // notification is accepted at most once, and asked for at most six times.
  lemma {:induction false} AcceptedAtMostOnce(trace: seq<World>, labels: seq<Label>, n: nat)
    requires IsRun(trace, labels) && n < |trace|
    ensures Invariant(trace[n])
    ensures forall id :: id in trace[n].known ==> trace[n].accepted[id] <= 1 && trace[n].attempted[id] <= |Backoff| + 1
  {
    if n > 0 {
      AcceptedAtMostOnce(trace, labels, n - 1);
      assert StepAt(trace, labels, n - 1);
      StepKeeps(trace[n - 1], labels[n - 1], trace[n]);
    }
    assert forall id :: id in trace[n].known ==> RowOk(trace[n], id);
  }

  // A settled row never leaves its state while its notification exists.
  lemma {:induction false} SettledForGood(trace: seq<World>, labels: seq<Label>, i: nat, j: nat, id: nat)
    requires IsRun(trace, labels) && i <= j < |trace|
    requires id in trace[i].rows && trace[i].rows[id].status in {Sent, Skipped, Failed}
    ensures id in trace[j].rows ==> trace[j].rows[id] == trace[i].rows[id]
    ensures id in trace[j].known
    decreases j - i
  {
    if i < j {
      SettledForGood(trace, labels, i, j - 1, id);
      assert StepAt(trace, labels, j - 1);
      SettledStays(trace[j - 1], labels[j - 1], trace[j], id, trace[i].rows[id]);
    } else {
      AcceptedAtMostOnce(trace, labels, i);
    }
  }

  lemma SettledStays(w: World, l: Label, w': World, id: nat, row: Row)
    requires Consistent(w) && Steps(w, l, w') && id in w.known && Settled(row.status) && (id in w.rows ==> w.rows[id] == row)
    ensures id in w'.known && (id in w'.rows ==> w'.rows[id] == row)
  {
  }

  // ---- What becomes of a row ---------------------------------------------------------

  // Step `i` settles a row that is still its sender's.
  ghost predicate SettlesAt(trace: seq<World>, labels: seq<Label>, i: nat, id: nat) {
    && i < |labels| && i < |trace| && labels[i].SettleRow? && labels[i].claim in trace[i].claims
    && trace[i].claims[labels[i].claim].id == id && trace[i].claims[labels[i].claim].done.Some?
    && id in trace[i].rows && trace[i].rows[id].status == Sending
  }

  // ... after an attempt that ended so.
  ghost predicate SettlesAs(trace: seq<World>, labels: seq<Label>, i: nat, id: nat, o: Outcome) {
    SettlesAt(trace, labels, i, id) && trace[i].claims[labels[i].claim].done == Some(o)
  }

  // A retryable failure: of the server's, or while preparing the message.
  predicate Retryable(o: Outcome) { o == Transient || o == PrepareFailed }

  // The wait after the `k`th failure: a minute, five, a quarter of an hour, an hour, six.
  predicate WaitIs(k: nat, wait: int) {
    && (k == 1 ==> wait == 60) && (k == 2 ==> wait == 5 * 60) && (k == 3 ==> wait == 15 * 60)
    && (k == 4 ==> wait == 60 * 60) && (k == 5 ==> wait == 6 * 60 * 60)
  }

  // What a settlement leaves: sent, skipped, failed for good, or waiting for a retry,
  // of which there are five.
  lemma SettledRow(trace: seq<World>, labels: seq<Label>, i: nat, id: nat, o: Outcome)
    requires IsRun(trace, labels) && SettlesAs(trace, labels, i, id, o)
    ensures var row, next := trace[i].rows[id], trace[i + 1].rows;
            && id in next
            && (o == Accepted ==> next[id].status == Sent && next[id].attempts == row.attempts + 1)
            && (o == SkipIt ==> next[id].status == Skipped && next[id].attempts == row.attempts)
            && (o == Permanent || o == OutcomeUnknown ==> next[id].status == Failed && next[id].attempts == row.attempts + 1)
            && (Retryable(o) ==> next[id].attempts == row.attempts + 1 <= 6)
            && (Retryable(o) && row.attempts == 5 ==> next[id].status == Failed)
            && (Retryable(o) && row.attempts < 5 ==>
                  next[id].status == Pending && WaitIs(row.attempts + 1, next[id].next - labels[i].now))
  {
    AcceptedAtMostOnce(trace, labels, i);
    assert ClaimOk(trace[i], labels[i].claim);
    assert StepAt(trace, labels, i);
  }

  // Any other step leaves the row alone, but for a claim once its time has come, a
  // restart, which fails it when it was being sent, and switching off, which skips it
  // when it was waiting.
  lemma UnsettledRow(trace: seq<World>, labels: seq<Label>, i: nat, id: nat)
    requires IsRun(trace, labels) && i < |labels| && id in trace[i].rows && id in trace[i + 1].rows && !SettlesAt(trace, labels, i, id)
    ensures var row, row', l := trace[i].rows[id], trace[i + 1].rows[id], labels[i];
            if l.Take? && l.id == id then row.status == Pending && row.next <= l.now && row' == row.(status := Sending)
            else if l.Recover? && row.status == Sending then row' == row.(status := Failed)
            else if l.SkipAll? && row.status == Pending then row' == row.(status := Skipped)
            else row' == row
  {
    AcceptedAtMostOnce(trace, labels, i);
    assert StepAt(trace, labels, i);
  }

  // A row a step adds was never settled before.
  lemma {:induction false} AddedFresh(trace: seq<World>, labels: seq<Label>, i: nat, n: nat, id: nat)
    requires IsRun(trace, labels) && i <= n < |labels| && id !in trace[n].rows && id in trace[n + 1].rows
    ensures !SettlesAt(trace, labels, i, id)
    ensures trace[n + 1].rows[id].status == Pending && trace[n + 1].rows[id].attempts == 0
  {
    assert StepAt(trace, labels, n);
    if id in trace[i].rows {
      AcceptedAtMostOnce(trace, labels, i);
      KnownStays(trace, labels, i, n, id);
    }
  }

  lemma {:induction false} KnownStays(trace: seq<World>, labels: seq<Label>, i: nat, j: nat, id: nat)
    requires IsRun(trace, labels) && i <= j < |trace| && id in trace[i].known
    ensures id in trace[j].known
    decreases j - i
  {
    if i < j {
      KnownStays(trace, labels, i, j - 1, id);
      assert StepAt(trace, labels, j - 1);
    }
  }

  // A row is sent if and only if it was settled after the server took the message.
  lemma {:induction false} SentIff(trace: seq<World>, labels: seq<Label>, n: nat, id: nat)
    requires IsRun(trace, labels) && n < |trace| && id in trace[n].rows
    ensures trace[n].rows[id].status == Sent <==> exists i: nat :: i < n && SettlesAs(trace, labels, i, id, Accepted)
  {
    if n > 0 {
      if id in trace[n - 1].rows {
        SentIff(trace, labels, n - 1, id);
        SentStep(trace, labels, n - 1, id);
      } else {
        forall i: nat | i < n
          ensures !SettlesAs(trace, labels, i, id, Accepted)
        {
          AddedFresh(trace, labels, i, n - 1, id);
        }
        AddedFresh(trace, labels, 0, n - 1, id);
      }
    }
  }

  lemma SentStep(trace: seq<World>, labels: seq<Label>, i: nat, id: nat)
    requires IsRun(trace, labels) && i < |labels| && id in trace[i].rows && id in trace[i + 1].rows
    ensures trace[i + 1].rows[id].status == Sent <==> trace[i].rows[id].status == Sent || SettlesAs(trace, labels, i, id, Accepted)
  {
    if SettlesAt(trace, labels, i, id) {
      SettledRow(trace, labels, i, id, trace[i].claims[labels[i].claim].done.value);
    } else {
      UnsettledRow(trace, labels, i, id);
    }
  }

  // How often the row was settled before state `n`, and when last.
  ghost function Settlements(trace: seq<World>, labels: seq<Label>, n: nat, id: nat): nat {
    if n == 0 then 0 else Settlements(trace, labels, n - 1, id) + if SettlesAt(trace, labels, n - 1, id) then 1 else 0
  }

  ghost function LastSettlement(trace: seq<World>, labels: seq<Label>, n: nat, id: nat): Instant {
    if n == 0 then 0
    else if SettlesAt(trace, labels, n - 1, id) then labels[n - 1].now
    else LastSettlement(trace, labels, n - 1, id)
  }

  // No restart and no switching off, and if the step settles the row, then after a
  // retryable failure.
  ghost predicate RetryableAt(trace: seq<World>, labels: seq<Label>, i: nat, id: nat) {
    && i < |labels| && i < |trace| && !labels[i].Recover? && !labels[i].SkipAll?
    && (SettlesAt(trace, labels, i, id) ==> Retryable(trace[i].claims[labels[i].claim].done.value))
  }

  // A row that failed so often, the last time at `at`.
  predicate Scheduled(row: Row, failures: nat, at: Instant) {
    && row.attempts == failures <= 6
    && (row.status == Failed <==> failures == 6)
    && (row.status == Failed || row.status == Pending || row.status == Sending)
    && (row.status == Pending && failures > 0 ==> WaitIs(failures, row.next - at))
  }

  // A row whose attempts all fail so is tried six times, each retry waiting as long as
  // its place says after the failure before it; then it has failed.
  lemma {:induction false} RetrySchedule(trace: seq<World>, labels: seq<Label>, n: nat, id: nat)
    requires IsRun(trace, labels) && n < |trace| && id in trace[n].rows
    requires forall i: nat :: i < n ==> RetryableAt(trace, labels, i, id)
    ensures Scheduled(trace[n].rows[id], Settlements(trace, labels, n, id), LastSettlement(trace, labels, n, id))
  {
    if n > 0 {
      assert RetryableAt(trace, labels, n - 1, id);
      if id in trace[n - 1].rows {
        RetrySchedule(trace, labels, n - 1, id);
        if SettlesAt(trace, labels, n - 1, id) {
          SettledRow(trace, labels, n - 1, id, trace[n - 1].claims[labels[n - 1].claim].done.value);
        } else {
          UnsettledRow(trace, labels, n - 1, id);
        }
      } else {
        AddedFresh(trace, labels, n - 1, n - 1, id);
        NoSettlements(trace, labels, n - 1, n - 1, id);
      }
    }
  }

  lemma {:induction false} NoSettlements(trace: seq<World>, labels: seq<Label>, k: nat, n: nat, id: nat)
    requires IsRun(trace, labels) && k <= n < |labels| && id !in trace[n].rows && id in trace[n + 1].rows
    ensures Settlements(trace, labels, k, id) == 0
  {
    if k > 0 {
      NoSettlements(trace, labels, k - 1, n, id);
      AddedFresh(trace, labels, k - 1, n, id);
    }
  }

  // The assumption is needed: a retryable report about an accepted message sends it
  // twice.
  function Lie(k: nat): World {
    var sent := map[0 := Row(Sending, 0, 0)];
    if k == 0 then World(map[], map[], {}, map[], map[])
    else if k == 1 then World(map[0 := Row(Pending, 0, 0)], map[], {0}, map[0 := 0], map[0 := 0])
    else if k == 2 then World(sent, map[0 := Claim(0, 0, None)], {0}, map[0 := 0], map[0 := 0])
    else if k == 3 then World(sent, map[0 := Claim(0, 0, Some(Transient))], {0}, map[0 := 1], map[0 := 1])
    else if k == 4 then World(map[0 := Row(Pending, 1, 60)], map[], {0}, map[0 := 1], map[0 := 1])
    else if k == 5 then World(map[0 := Row(Sending, 1, 60)], map[0 := Claim(0, 1, None)], {0}, map[0 := 1], map[0 := 1])
    else World(map[0 := Row(Sending, 1, 60)], map[0 := Claim(0, 1, Some(Accepted))], {0}, map[0 := 2], map[0 := 2])
  }

  function LieLabels(): seq<Label> {
    [Enqueue(0, 0), Take(0, 0, 0), Attempt(0, Transient, true), SettleRow(0, 0), Take(0, 0, 60), Attempt(0, Accepted, true)]
  }

  lemma FirstAttempt(k: nat)
    requires k < 3
    ensures Consistent(Lie(k)) && Steps(Lie(k), LieLabels()[k], Lie(k + 1))
  {
  }

  lemma SecondAttempt(k: nat)
    requires 3 <= k < 6
    ensures Consistent(Lie(k)) && Steps(Lie(k), LieLabels()[k], Lie(k + 1))
  {
    if k == 3 {
      assert Lie(3).claims - {0} == map[];
    }
  }

  // A run but for one report, which is false.
  ghost predicate IsRunButFor(trace: seq<World>, labels: seq<Label>, lie: nat) {
    && |trace| == |labels| + 1 && Initial(trace[0]) && lie < |labels| && !Honest(labels[lie])
    && (forall i :: 0 <= i < |labels| ==> MovesAt(trace, labels, i))
    && forall i :: 0 <= i < |labels| && i != lie ==> Honest(labels[i])
  }

  lemma RetryableReportMustBeTrue()
    ensures exists trace: seq<World>, labels: seq<Label>, lie: nat ::
              && IsRunButFor(trace, labels, lie) && labels[lie].Attempt? && labels[lie].outcome == Transient
              && trace[|labels|].accepted == map[0 := 2]
  {
    var trace, labels := seq(7, (k: nat) => Lie(k)), LieLabels();
    forall k | 0 <= k < |labels|
      ensures MovesAt(trace, labels, k)
    {
      if k < 3 {
        FirstAttempt(k);
      } else {
        SecondAttempt(k);
      }
    }
    assert IsRunButFor(trace, labels, 2);
    assert trace[6] == Lie(6);
  }
}
