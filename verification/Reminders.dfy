/**
The reminder of a hold about to expire (internal/application/hold_expiry.go,
ReminderSent and RemindHold of internal/adapters/sqlite): for one ticket, every
interleaving of passes that look at it, replies that end its hold, and new holds.  A
pass lists the ticket, then reads the log of reminders, then writes: three separate
transactions.
*/
module Reminders {
  import opened Core

  // A reminder for the hold that began at `since`, stamped with its pass's clock.
  datatype Reminder = Reminder(since: Instant, at: Instant)

  // A pass that listed the hold and found its reminder due, and one that then found
  // no reminder of it in the log.
  datatype Visit = Listed(since: Instant, now: Instant) | Unsent(since: Instant, now: Instant)

  datatype World = World(hold: Option<Instant>, rows: seq<Reminder>, visits: map<nat, Visit>)

  datatype Label =
    | Hold(at: Instant)
    | Release
    | List(id: nat, now: Instant)
    | Check(id: nat)
    | Write(id: nat)
    | Stop(id: nat)

  // What the log is asked: any reminder since the hold began.
  predicate Sent(rows: seq<Reminder>, since: Instant) {
    exists i :: 0 <= i < |rows| && rows[i].at >= since
  }

  // The write checks that the hold the pass listed is still the stored one.
  predicate Lands(w: World, l: Label) {
    l.Write? && l.id in w.visits && w.visits[l.id].Unsent? && w.hold == Some(w.visits[l.id].since)
  }

  predicate Steps(w: World, l: Label, w': World) {
    match l
    case Hold(at) => w.hold.None? && w' == w.(hold := Some(at))
    case Release => w' == w.(hold := None)
    case List(id, now) =>
      && id !in w.visits && w.hold.Some? && w.hold.value <= now
      && w' == w.(visits := w.visits[id := Listed(w.hold.value, now)])
    case Check(id) =>
      && id in w.visits && w.visits[id].Listed?
      && var v := w.visits[id];
         w' == w.(visits := if Sent(w.rows, v.since) then w.visits - {id} else w.visits[id := Unsent(v.since, v.now)])
    case Write(id) =>
      && id in w.visits && w.visits[id].Unsent?
      && var v := w.visits[id];
         w' == w.(visits := w.visits - {id}, rows := if Lands(w, l) then w.rows + [Reminder(v.since, v.now)] else w.rows)
    case Stop(id) => w' == w.(visits := w.visits - {id})
  }

  predicate StepAt(trace: seq<World>, labels: seq<Label>, k: nat) {
    k < |labels| && k + 1 < |trace| && Steps(trace[k], labels[k], trace[k + 1])
  }

  predicate IsRun(trace: seq<World>, labels: seq<Label>) {
    && |trace| == |labels| + 1 && trace[0] == World(None, [], map[])
    && forall k :: 0 <= k < |labels| ==> StepAt(trace, labels, k)
  }

  // How many reminders the hold that began at `since` got.
  function RemindersOf(rows: seq<Reminder>, since: Instant): nat {
    if rows == [] then 0 else RemindersOf(rows[..|rows| - 1], since) + if rows[|rows| - 1].since == since then 1 else 0
  }

  lemma RemindersAppend(rows: seq<Reminder>, r: Reminder, since: Instant)
    ensures RemindersOf(rows + [r], since) == RemindersOf(rows, since) + if r.since == since then 1 else 0
  {
    assert (rows + [r])[..|rows|] == rows;
  }

  // Reminders are stamped no earlier than their hold began.
  predicate Stamped(w: World) {
    && (forall i :: 0 <= i < |w.rows| ==> w.rows[i].since <= w.rows[i].at)
    && forall id :: id in w.visits ==> w.visits[id].since <= w.visits[id].now
  }

  lemma {:induction false} CountedIsSent(rows: seq<Reminder>, since: Instant)
    requires forall i :: 0 <= i < |rows| ==> rows[i].since <= rows[i].at
    ensures RemindersOf(rows, since) > 0 ==> Sent(rows, since)
    decreases |rows|
  {
    if rows != [] {
      var init := rows[..|rows| - 1];
      CountedIsSent(init, since);
      if RemindersOf(init, since) > 0 {
        var i :| 0 <= i < |init| && init[i].at >= since;
        assert rows[i].at >= since;
      } else if RemindersOf(rows, since) > 0 {
        assert rows[|rows| - 1].at >= since;
      }
    }
  }

  lemma {:induction false} RunsAreStamped(trace: seq<World>, labels: seq<Label>, n: nat)
    requires IsRun(trace, labels) && n < |trace|
    ensures Stamped(trace[n])
  {
    if n > 0 {
      RunsAreStamped(trace, labels, n - 1);
      assert StepAt(trace, labels, n - 1);
    }
  }

  // A pass goes on to write if and only if it finds no reminder stamped since the hold
  // began, and its write reminds, once and with its own clock, if and only if that hold
  // is still on.
  lemma WhenItReminds(trace: seq<World>, labels: seq<Label>, k: nat)
    requires IsRun(trace, labels) && k < |labels|
    ensures labels[k].Check? ==>
              && labels[k].id in trace[k].visits
              && var since := trace[k].visits[labels[k].id].since;
                 labels[k].id in trace[k + 1].visits <==> forall i :: 0 <= i < |trace[k].rows| ==> trace[k].rows[i].at < since
    ensures labels[k].Write? ==>
              && labels[k].id in trace[k].visits
              && var v := trace[k].visits[labels[k].id];
                 trace[k + 1].rows == trace[k].rows + if trace[k].hold == Some(v.since) then [Reminder(v.since, v.now)] else []
    ensures !labels[k].Write? ==> trace[k + 1].rows == trace[k].rows
    ensures trace[k + 1].hold == match labels[k] case Hold(at) => Some(at) case Release => None case _ => trace[k].hold
  {
    assert StepAt(trace, labels, k);
  }

  // ---- Passes that do not overlap ------------------------------------------------------

  // No two passes are at this ticket at once.
  predicate Sequential(trace: seq<World>) {
    forall k :: 0 <= k < |trace| ==> AtMostOneVisit(trace[k])
  }

  predicate AtMostOneVisit(w: World) {
    forall id, other :: id in w.visits && other in w.visits ==> id == other
  }

  predicate Fresh(w: World) {
    forall id :: id in w.visits && w.visits[id].Unsent? ==> !Sent(w.rows, w.visits[id].since)
  }

  ghost predicate Once(w: World) { forall since :: RemindersOf(w.rows, since) <= 1 }

  lemma WriteKeepsOnce(w: World, l: Label, w': World)
    requires Stamped(w) && Fresh(w) && Once(w) && Steps(w, l, w')
    ensures Once(w')
  {
    if Lands(w, l) {
      var v := w.visits[l.id];
      CountedIsSent(w.rows, v.since);
      forall since
        ensures RemindersOf(w'.rows, since) <= 1
      {
        RemindersAppend(w.rows, Reminder(v.since, v.now), since);
      }
    }
  }

  lemma StaysFresh(w: World, l: Label, w': World)
    requires Fresh(w) && AtMostOneVisit(w) && Steps(w, l, w')
    ensures Fresh(w')
  {
  }

  // Passes that do not overlap remind at most once per hold, whatever holds, replies
  // and new holds come between them or in the middle of one.
  lemma {:induction false} RemindedAtMostOnce(trace: seq<World>, labels: seq<Label>, n: nat)
    requires IsRun(trace, labels) && n < |trace| && Sequential(trace)
    ensures Once(trace[n]) && Fresh(trace[n])
  {
    if n > 0 {
      RemindedAtMostOnce(trace, labels, n - 1);
      RunsAreStamped(trace, labels, n - 1);
      assert StepAt(trace, labels, n - 1) && AtMostOneVisit(trace[n - 1]);
      WriteKeepsOnce(trace[n - 1], labels[n - 1], trace[n]);
      StaysFresh(trace[n - 1], labels[n - 1], trace[n]);
    }
  }

  // ---- Passes that overlap -------------------------------------------------------------

  // The step stores a reminder of the hold that began at `since`.
  predicate Reminds(trace: seq<World>, labels: seq<Label>, m: nat, since: Instant) {
    m < |trace| && m < |labels| && Lands(trace[m], labels[m]) && trace[m].visits[labels[m].id].since == since
  }

  ghost predicate RemindedBetween(trace: seq<World>, labels: seq<Label>, c: nat, k: nat, since: Instant) {
    exists m :: c <= m < k && Reminds(trace, labels, m, since)
  }

  lemma StepCounts(trace: seq<World>, labels: seq<Label>, k: nat, since: Instant)
    requires IsRun(trace, labels) && k < |labels|
    ensures RemindersOf(trace[k + 1].rows, since) ==
            RemindersOf(trace[k].rows, since) + if Reminds(trace, labels, k, since) then 1 else 0
  {
    assert StepAt(trace, labels, k);
    if Lands(trace[k], labels[k]) {
      var v := trace[k].visits[labels[k].id];
      RemindersAppend(trace[k].rows, Reminder(v.since, v.now), since);
    }
  }

  lemma {:induction false} CountGrows(trace: seq<World>, labels: seq<Label>, c: nat, k: nat, since: Instant)
    requires IsRun(trace, labels) && c <= k < |trace|
    ensures RemindersOf(trace[k].rows, since) >= RemindersOf(trace[c].rows, since)
    ensures RemindersOf(trace[k].rows, since) > RemindersOf(trace[c].rows, since) <==> RemindedBetween(trace, labels, c, k, since)
    decreases k - c
  {
    if c < k {
      CountGrows(trace, labels, c, k - 1, since);
      StepCounts(trace, labels, k - 1, since);
      if RemindedBetween(trace, labels, c, k, since) {
        var m :| c <= m < k && Reminds(trace, labels, m, since);
        assert m == k - 1 || RemindedBetween(trace, labels, c, k - 1, since);
      }
      if RemindedBetween(trace, labels, c, k - 1, since) {
        var m :| c <= m < k - 1 && Reminds(trace, labels, m, since);
      }
    }
  }

  // A pass that read the log at step `c` and writes at step `k` reminds a hold again
  // if and only if another pass reminded it in between.
  lemma RemindsAgainIff(trace: seq<World>, labels: seq<Label>, c: nat, k: nat, since: Instant)
    requires IsRun(trace, labels) && c < k < |labels| && Reminds(trace, labels, k, since)
    requires labels[c] == Check(labels[k].id) && labels[c].id in trace[c].visits && trace[c].visits[labels[c].id].since == since
    requires labels[c].id in trace[c + 1].visits
    ensures RemindersOf(trace[k + 1].rows, since) > 1 <==> RemindedBetween(trace, labels, c + 1, k, since)
  {
    RunsAreStamped(trace, labels, c);
    CountedIsSent(trace[c].rows, since);
    assert StepAt(trace, labels, c);
    assert RemindersOf(trace[c + 1].rows, since) == 0;
    CountGrows(trace, labels, c + 1, k, since);
    StepCounts(trace, labels, k, since);
  }

  function Overlap(k: nat): World {
    var held := World(Some(0), [], map[]);
    if k == 0 then World(None, [], map[])
    else if k == 1 then held
    else if k == 2 then held.(visits := map[1 := Listed(0, 10)])
    else if k == 3 then held.(visits := map[1 := Listed(0, 10), 2 := Listed(0, 10)])
    else if k == 4 then held.(visits := map[1 := Unsent(0, 10), 2 := Listed(0, 10)])
    else if k == 5 then held.(visits := map[1 := Unsent(0, 10), 2 := Unsent(0, 10)])
    else if k == 6 then World(Some(0), [Reminder(0, 10)], map[2 := Unsent(0, 10)])
    else World(Some(0), [Reminder(0, 10), Reminder(0, 10)], map[])
  }

  function OverlapLabels(): seq<Label> { [Hold(0), List(1, 10), List(2, 10), Check(1), Check(2), Write(1), Write(2)] }

  // Two passes at one ticket may remind one hold twice.
  lemma OverlappingPassesRemindTwice()
    ensures exists trace: seq<World>, labels: seq<Label> ::
              IsRun(trace, labels) && RemindersOf(trace[|labels|].rows, 0) == 2
  {
    var trace := seq(8, (k: nat) => Overlap(k));
    var labels := OverlapLabels();
    forall k | 0 <= k < |labels|
      ensures StepAt(trace, labels, k)
    {
      assert k == 5 ==> trace[5].visits - {1} == map[2 := Unsent(0, 10)];
      assert k == 6 ==> trace[6].visits - {2} == map[];
    }
    assert IsRun(trace, labels);
    RemindersAppend([], Reminder(0, 10), 0);
    RemindersAppend([Reminder(0, 10)], Reminder(0, 10), 0);
    assert trace[7].rows == [Reminder(0, 10)] + [Reminder(0, 10)];
  }
}
