/**
The background passes: the keyset pass over candidates that change under it
(internal/application/hold_expiry.go and alerts.go), and alerts recorded once
(internal/adapters/sqlite/alert_store.go).
*/
module Passes {
  import opened Core

  // ---- The keyset pass -------------------------------------------------------------

  predicate Ascending(ids: seq<nat>) { forall i, j :: 0 <= i < j < |ids| ==> ids[i] < ids[j] }

  // One bounded read: the first `limit` candidates after an id, in id order.
  ghost predicate IsPage(candidates: set<nat>, after: nat, limit: nat, page: seq<nat>) {
    && |page| <= limit && Ascending(page)
    && (forall i :: 0 <= i < |page| ==> page[i] in candidates && after < page[i])
    && forall x :: x in candidates && after < x && x !in page ==> |page| == limit && limit > 0 && page[limit - 1] < x
  }

  // The candidates at each read, what the read answered, and the tickets whose rule
  // fails.  Between reads the pass itself closes tickets, and others open, hold or
  // close some.
  datatype Reads = Reads(candidates: nat -> set<nat>, page: (nat, nat) -> seq<nat>, fails: nat -> bool)

  ghost predicate Faithful(r: Reads, limit: nat, last: nat) {
    && (forall n: nat, after: nat :: IsPage(r.candidates(n), after, limit, r.page(n, after)))
    && forall n: nat, x :: x in r.candidates(n) ==> 0 < x <= last
  }

  // The pass ends, applies its rule to each ticket at most once and in id order,
  // only to tickets that were candidates when read, and to every ticket that was a
  // candidate at every read.  The first failure ends it, with every such ticket before
  // the failing one done.
  method Pass(r: Reads, limit: nat, ghost last: nat) returns (applied: seq<nat>, turns: nat, failed: bool)
    requires limit > 0 && Faithful(r, limit, last)
    ensures Ascending(applied)
    ensures turns > 0 && forall i :: 0 <= i < |applied| ==> Once(r, turns, applied[i])
    ensures failed ==> applied != [] && r.fails(applied[|applied| - 1])
    ensures forall i :: 0 <= i < |applied| && !(failed && i == |applied| - 1) ==> !r.fails(applied[i])
    ensures forall x :: Always(r, turns, x) && (failed ==> x <= applied[|applied| - 1]) ==> x in applied
  {
    var afterID := 0;
    applied := [];
    turns := 0;
    failed := false;
    while true
      invariant afterID <= last && PassedTo(r, applied, turns, afterID) && NoneFails(r, applied)
      decreases last - afterID
    {
      var page := r.page(turns, afterID);
      var done, stopped := ApplyPage(r, page);
      PageEnds(r, limit, last, applied, turns, afterID, page, done, stopped);
      applied, turns, failed := applied + done, turns + 1, stopped;
      if failed || |page| < limit {
        return;
      }
      afterID := page[|page| - 1];
    }
  }

  // What a pass answers.
  ghost predicate PassResult(r: Reads, applied: seq<nat>, turns: nat, failed: bool) {
    && Ascending(applied) && turns > 0 && (forall i :: 0 <= i < |applied| ==> Once(r, turns, applied[i]))
    && (failed ==> applied != [] && r.fails(applied[|applied| - 1]))
    && (forall i :: 0 <= i < |applied| && !(failed && i == |applied| - 1) ==> !r.fails(applied[i]))
    && forall x :: Always(r, turns, x) && (failed ==> x <= applied[|applied| - 1]) ==> x in applied
  }

  // A page was applied up to its first failure, if any.
  predicate AppliedTo(r: Reads, page: seq<nat>, done: seq<nat>, failed: bool) {
    && done <= page && (if failed then done != [] && r.fails(done[|done| - 1]) else done == page)
    && forall i :: 0 <= i < |done| && !(failed && i == |done| - 1) ==> !r.fails(done[i])
  }

  lemma PageEnds(r: Reads, limit: nat, last: nat, applied: seq<nat>, turns: nat, afterID: nat, page: seq<nat>,
      done: seq<nat>, failed: bool)
    requires limit > 0 && Faithful(r, limit, last) && PassedTo(r, applied, turns, afterID) && NoneFails(r, applied)
    requires page == r.page(turns, afterID) && AppliedTo(r, page, done, failed)
    ensures failed || |page| < limit ==> PassResult(r, applied + done, turns + 1, failed)
    ensures !failed && |page| >= limit ==>
              && afterID < page[|page| - 1] <= last && PassedTo(r, applied + done, turns + 1, page[|page| - 1])
              && NoneFails(r, applied + done)
  {
    PageApplied(r, limit, last, applied, turns, afterID, page);
    if failed {
      PassStops(r, limit, applied, turns + 1, page, |done| - 1);
      assert applied + done == applied + page[..|done| - 1] + [page[|done| - 1]];
    }
  }

  // One page, ticket by ticket, up to the first failure.
  method ApplyPage(r: Reads, page: seq<nat>) returns (done: seq<nat>, failed: bool)
    ensures AppliedTo(r, page, done, failed)
  {
    done := [];
    for i := 0 to |page|
      invariant done == page[..i] && NoneFails(r, done)
    {
      done := done + [page[i]];
      if r.fails(page[i]) {
        return done, true;
      }
    }
    return done, false;
  }

  predicate NoneFails(r: Reads, applied: seq<nat>) { forall i :: 0 <= i < |applied| ==> !r.fails(applied[i]) }

  lemma PageStopped(before: seq<nat>, page: seq<nat>, i: nat)
    requires i < |page| && Ascending(before + page)
    ensures before + page[..i] + [page[i]] == (before + page)[..|before| + i + 1]
    ensures Ascending(before + page[..i] + [page[i]])
    ensures forall x :: x in before + page && x <= page[i] ==> x in before + page[..i] + [page[i]]
  {
    var all := before + page;
    assert all[|before| + i] == page[i];
    assert before + page[..i] + [page[i]] == all[..|before| + i + 1];
    forall x | x in all && x <= page[i]
      ensures x in all[..|before| + i + 1]
    {
      var k :| 0 <= k < |all| && all[k] == x;
      assert k <= |before| + i;
      assert all[..|before| + i + 1][k] == x;
    }
  }

  // What a pass that fails at `page[i]` has done.
  lemma PassStops(r: Reads, limit: nat, before: seq<nat>, turns: nat, page: seq<nat>, i: nat)
    requires i < |page| <= limit && Ascending(before + page)
    requires forall k :: 0 <= k < |before + page| ==> Once(r, turns, (before + page)[k])
    requires forall x :: Always(r, turns, x) ==> x in before + page || (|page| == limit && page[limit - 1] < x)
    ensures var applied := before + page[..i] + [page[i]];
            && Ascending(applied)
            && (forall k :: 0 <= k < |applied| ==> Once(r, turns, applied[k]))
            && forall x :: Always(r, turns, x) && x <= page[i] ==> x in applied
  {
    var applied := before + page[..i] + [page[i]];
    PageStopped(before, page, i);
    assert (before + page)[|before| + i] <= (before + page)[|before + page| - 1];
  }

  // The id was a candidate at every one of the first reads.
  ghost predicate Always(r: Reads, turns: nat, x: nat) { forall n :: 0 <= n < turns ==> x in r.candidates(n) }

  ghost predicate Once(r: Reads, turns: nat, x: nat) { exists n :: 0 <= n < turns && x in r.candidates(n) }

  // The pass so far: everything up to `afterID` that it had to reach.
  ghost predicate PassedTo(r: Reads, applied: seq<nat>, turns: nat, afterID: nat) {
    && Ascending(applied) && (forall i :: 0 <= i < |applied| ==> applied[i] <= afterID && Once(r, turns, applied[i]))
    && forall x :: 0 < x <= afterID && Always(r, turns, x) ==> x in applied
  }

  lemma PageApplied(r: Reads, limit: nat, last: nat, applied: seq<nat>, turns: nat, afterID: nat, page: seq<nat>)
    requires limit > 0 && Faithful(r, limit, last) && PassedTo(r, applied, turns, afterID) && page == r.page(turns, afterID)
    ensures |page| == limit ==> afterID < page[limit - 1] <= last && PassedTo(r, applied + page, turns + 1, page[limit - 1])
    ensures |page| <= limit && Ascending(applied + page)
    ensures forall i :: 0 <= i < |applied + page| ==> Once(r, turns + 1, (applied + page)[i])
    ensures forall x :: Always(r, turns + 1, x) ==> x in applied + page || (|page| == limit && page[limit - 1] < x)
  {
    assert IsPage(r.candidates(turns), afterID, limit, page);
    forall i | 0 <= i < |applied + page|
      ensures Once(r, turns + 1, (applied + page)[i])
    {
      if i < |applied| {
        assert Once(r, turns, applied[i]);
      } else {
        assert page[i - |applied|] in r.candidates(turns);
      }
    }
    forall x | Always(r, turns + 1, x)
      ensures x in applied + page || (|page| == limit && page[limit - 1] < x)
    {
      assert x in r.candidates(turns) && Always(r, turns, x);
    }
    if |page| == limit {
      assert page[limit - 1] in r.candidates(turns);
    }
  }

  // ---- Alerts ---------------------------------------------------------------------

  datatype AlertKind = SlaAlert(threshold: nat) | NoMovement

  // `since` scopes a no-movement alert to the current silence.
  datatype Alert = Alert(ticket: nat, kind: AlertKind, at: Instant, since: Option<Instant>)

  // The same condition was already reported: ever, or since the silence began.
  predicate Sent(rows: seq<Alert>, a: Alert) {
    exists i :: 0 <= i < |rows| && rows[i].ticket == a.ticket && rows[i].kind == a.kind &&
                (a.since.Some? ==> rows[i].at >= a.since.value)
  }

  function Appended(rows: seq<Alert>, a: Alert): seq<Alert> {
    if Sent(rows, a) then rows else rows + [a]
  }

  // What a pass attempts: a threshold alert is about the ticket's whole life, a
  // no-movement alert about a silence that began before it.
  predicate WellAimed(a: Alert) {
    if a.kind.SlaAlert? then a.since.None? else a.since.Some? && a.since.value <= a.at
  }

  class AlertLog {
    var rows: seq<Alert>

    constructor ()
      ensures rows == []
    {
      rows := [];
    }

    // Check and write in one transaction; what is already recorded is not an error.
    method AppendAlert(a: Alert)
      modifies this
      ensures rows == Appended(old(rows), a)
    {
      for i := 0 to |rows|
        invariant forall j :: 0 <= j < i ==>
                    !(rows[j].ticket == a.ticket && rows[j].kind == a.kind && (a.since.Some? ==> rows[j].at >= a.since.value))
      {
        if rows[i].ticket == a.ticket && rows[i].kind == a.kind && (a.since.None? || rows[i].at >= a.since.value) {
          return;
        }
      }
      rows := rows + [a];
    }
  }

  // Overlapping passes are interleaved attempts.
  function AfterAttempts(attempts: seq<Alert>): seq<Alert> {
    if attempts == [] then [] else Appended(AfterAttempts(attempts[..|attempts| - 1]), attempts[|attempts| - 1])
  }

  // Two reports about one ticket and condition: a no-movement alert after activity
  // that came after the earlier report.
  predicate Separate(earlier: Alert, later: Alert) {
    earlier.ticket == later.ticket && earlier.kind == later.kind ==>
      later.kind == NoMovement && later.since.Some? && earlier.at < later.since.value
  }

  predicate AllSeparate(rows: seq<Alert>) {
    forall i, j :: 0 <= i < j < |rows| ==> Separate(rows[i], rows[j])
  }

  lemma AppendKeepsSeparate(rows: seq<Alert>, a: Alert)
    requires AllSeparate(rows) && WellAimed(a)
    ensures AllSeparate(Appended(rows, a)) && Sent(Appended(rows, a), a)
  {
    if !Sent(rows, a) {
      forall i | 0 <= i < |rows|
        ensures Separate(rows[i], a)
      {
      }
      assert (rows + [a])[|rows|] == a;
    }
  }

  lemma SentStays(rows: seq<Alert>, more: Alert, a: Alert)
    requires Sent(rows, a)
    ensures Sent(Appended(rows, more), a)
  {
    var i :| 0 <= i < |rows| && rows[i].ticket == a.ticket && rows[i].kind == a.kind &&
             (a.since.Some? ==> rows[i].at >= a.since.value);
    assert Appended(rows, more)[i] == rows[i];
  }

  // However many passes overlap, and in whatever order they commit: a threshold is
  // reported once per ticket, two no-movement alerts of a ticket are separated by
  // activity after the first, and every attempted condition is on record.
  lemma {:induction false} AlertsAreReportedOnce(attempts: seq<Alert>)
    requires forall i :: 0 <= i < |attempts| ==> WellAimed(attempts[i])
    ensures AllSeparate(AfterAttempts(attempts))
    ensures forall i :: 0 <= i < |attempts| ==> Sent(AfterAttempts(attempts), attempts[i])
    decreases |attempts|
  {
    if attempts != [] {
      var init, a := attempts[..|attempts| - 1], attempts[|attempts| - 1];
      AlertsAreReportedOnce(init);
      AppendKeepsSeparate(AfterAttempts(init), a);
      forall i | 0 <= i < |init|
        ensures Sent(AfterAttempts(attempts), attempts[i])
      {
        SentStays(AfterAttempts(init), a, init[i]);
      }
    }
  }
}
