/**
What holds do to a commitment (internal/domain/sla.go): an instant still ahead when a
hold begins keeps its remaining working time, and over any sequence of holds the
working time until it, not counting the holds, stays what it was.
*/
module HoldShift {
  import opened Core
  import opened Holds

  // ---- One instant ---------------------------------------------------------------------

  // The instant after one hold, told by the working time it had left.
  ghost predicate KeepsRemaining(cal: Calendar, e: Ended, before: Option<Instant>, after: Option<Instant>) {
    && (after.Some? <==> before.Some?)
    && (before.Some? && before.value <= e.since ==> after == before)
    && (before.Some? && before.value > e.since ==>
          && after.value >= before.value && after.value >= e.resumed
          && cal.between(e.resumed, after.value) == cal.between(e.since, before.value))
  }

  // Adding working time is undone by counting it, on any calendar.
  ghost predicate Undoes(cal: Calendar) {
    forall from, n :: 0 <= n ==> cal.add(from, n) >= from && cal.between(from, cal.add(from, n)) == n
  }

  // ... and time passes: working time adds up and is never negative.
  ghost predicate Regular(cal: Calendar) {
    && Undoes(cal)
    && (forall a, b :: a <= b ==> cal.between(a, b) >= 0)
    && forall a, b, c :: a <= b <= c ==> AddsUp(cal, a, b, c)
  }

  predicate AddsUp(cal: Calendar, a: Instant, b: Instant, c: Instant) {
    cal.between(a, c) == cal.between(a, b) + cal.between(b, c)
  }

  // On a calendar whose adding is undone by counting, an instant still ahead at the pause
  // keeps its remaining working time, unless that would bring it forward: then it stays.
  lemma RemainingKept(cal: Calendar, e: Ended, at: Instant)
    requires Undoes(cal) && at > e.since && cal.between(e.since, at) >= 0
    ensures var left := cal.between(e.since, at);
            var after := ShiftedInstant(Some(at), e.since, e.resumed, cal);
            && after.Some?
            && (if cal.add(e.resumed, left) < at then after.value == at else cal.between(e.resumed, after.value) == left)
  {
  }

  // On a regular calendar nothing has to be held back: the remaining working time is kept
  // in every case.
  lemma ShiftKeeps(cal: Calendar, e: Ended, at: Option<Instant>)
    requires Regular(cal) && e.since <= e.resumed
    ensures KeepsRemaining(cal, e, at, ShiftedInstant(at, e.since, e.resumed, cal))
  {
    if at.Some? && at.value > e.since {
      var left := cal.between(e.since, at.value);
      var moved := cal.add(e.resumed, left);
      if moved < at.value {
        assert AddsUp(cal, e.resumed, moved, at.value) && AddsUp(cal, e.since, e.resumed, at.value);
      }
    }
  }

  // The warning and the deadline alike.
  lemma CommitmentKeepsRemaining(s: Option<Sla>, e: Ended)
    requires Regular(e.cal) && e.since <= e.resumed
    ensures var after := ShiftForHold(s, e.since, e.resumed, e.cal);
            && (after.Some? <==> s.Some?)
            && (s.Some? ==> KeepsRemaining(e.cal, e, s.value.warn, after.value.warn) && KeepsRemaining(e.cal, e, s.value.due, after.value.due))
  {
    if s.Some? {
      ShiftKeeps(e.cal, e, s.value.warn);
      ShiftKeeps(e.cal, e, s.value.due);
    }
  }

  // ---- The warning before the deadline ---------------------------------------------------

  ghost predicate Monotone(cal: Calendar) {
    && (forall from, m, n :: m <= n ==> cal.add(from, m) <= cal.add(from, n))
    && forall from, a, b :: a <= b ==> cal.between(from, a) <= cal.between(from, b)
  }

  predicate Ordered(s: Option<Sla>) { s.Some? && s.value.warn.Some? && s.value.due.Some? ==> s.value.warn.value <= s.value.due.value }

  lemma ShiftKeepsOrder(s: Option<Sla>, e: Ended)
    requires Monotone(e.cal) && Ordered(s)
    ensures Ordered(ShiftForHold(s, e.since, e.resumed, e.cal))
  {
    if s.Some? && s.value.warn.Some? && s.value.due.Some? {
      assert e.cal.between(e.since, s.value.warn.value) <= e.cal.between(e.since, s.value.due.value);
      assert e.cal.add(e.resumed, e.cal.between(e.since, s.value.warn.value)) <= e.cal.add(e.resumed, e.cal.between(e.since, s.value.due.value));
    }
  }

  // ---- A sequence of holds -----------------------------------------------------------------

  // Each hold ends after it began, and before the next one begins.
  predicate InOrder(ended: seq<Ended>) {
    && (forall i :: 0 <= i < |ended| ==> ended[i].since <= ended[i].resumed)
    && forall i, j :: 0 <= i < j < |ended| ==> ended[i].resumed <= ended[j].since
  }

  // The working time between `from` and `to`, not counting the holds.
  function Worked(cal: Calendar, from: Instant, ended: seq<Ended>, to: Instant): int {
    if ended == [] then cal.between(from, to)
    else Worked(cal, from, ended[..|ended| - 1], ended[|ended| - 1].since) + cal.between(ended[|ended| - 1].resumed, to)
  }

  lemma WorkedTo(cal: Calendar, from: Instant, ended: seq<Ended>, a: Instant, b: Instant)
    requires Regular(cal) && a <= b && (if ended == [] then from <= a else ended[|ended| - 1].resumed <= a)
    ensures Worked(cal, from, ended, b) == Worked(cal, from, ended, a) + cal.between(a, b)
  {
    assert AddsUp(cal, if ended == [] then from else ended[|ended| - 1].resumed, a, b);
  }

  // What a hold is later: the part of the commitment this instant is.
  function Part(s: Option<Sla>, warn: bool): Option<Instant> {
    if s.None? then None else if warn then s.value.warn else s.value.due
  }

  // The instant was still ahead whenever a hold began.
  ghost predicate AlwaysAhead(initial: Option<Sla>, ended: seq<Ended>, warn: bool) {
    forall i :: 0 <= i < |ended| ==> AheadAt(initial, ended, i, warn)
  }

  predicate AheadAt(initial: Option<Sla>, ended: seq<Ended>, i: nat, warn: bool) {
    i < |ended| && Part(AfterHolds(initial, ended[..i]), warn).Some? && Part(AfterHolds(initial, ended[..i]), warn).value > ended[i].since
  }

  // Holds cost no working time: from any instant before them, the working time until the
  // warning, and until the deadline, not counting the holds, is what it was without them.
  lemma {:induction false} HoldsCostNoTime(cal: Calendar, from: Instant, initial: Option<Sla>, ended: seq<Ended>, warn: bool)
    requires Regular(cal) && InOrder(ended) && AlwaysAhead(initial, ended, warn) && Part(initial, warn).Some?
    requires forall i :: 0 <= i < |ended| ==> ended[i].cal == cal && from <= ended[i].since
    ensures var after := Part(AfterHolds(initial, ended), warn);
            && after.Some? && after.value >= Part(initial, warn).value
            && (ended != [] ==> after.value >= ended[|ended| - 1].resumed)
            && Worked(cal, from, ended, after.value) == cal.between(from, Part(initial, warn).value)
    decreases |ended|
  {
    if ended != [] {
      var init := ended[..|ended| - 1];
      AheadBefore(initial, ended, warn);
      HoldsCostNoTime(cal, from, initial, init, warn);
      LastHold(cal, from, initial, ended, warn);
    }
  }

  lemma AheadBefore(initial: Option<Sla>, ended: seq<Ended>, warn: bool)
    requires ended != [] && AlwaysAhead(initial, ended, warn)
    ensures AlwaysAhead(initial, ended[..|ended| - 1], warn) && AheadAt(initial, ended, |ended| - 1, warn)
  {
    var init := ended[..|ended| - 1];
    forall i | 0 <= i < |init|
      ensures AheadAt(initial, init, i, warn)
    {
      assert AheadAt(initial, ended, i, warn) && init[..i] == ended[..i];
    }
  }

  lemma LastHold(cal: Calendar, from: Instant, initial: Option<Sla>, ended: seq<Ended>, warn: bool)
    requires Regular(cal) && ended != [] && InOrder(ended) && AheadAt(initial, ended, |ended| - 1, warn)
    requires ended[|ended| - 1].cal == cal && from <= ended[|ended| - 1].since
    ensures var before := Part(AfterHolds(initial, ended[..|ended| - 1]), warn).value;
            var after := Part(AfterHolds(initial, ended), warn);
            && after.Some? && after.value >= before && after.value >= ended[|ended| - 1].resumed
            && Worked(cal, from, ended, after.value) == Worked(cal, from, ended[..|ended| - 1], before)
  {
    var init, e := ended[..|ended| - 1], ended[|ended| - 1];
    CommitmentKeepsRemaining(AfterHolds(initial, init), e);
    HoldStep(cal, from, init, e, Part(AfterHolds(initial, init), warn).value, Part(AfterHolds(initial, ended), warn).value);
    assert init + [e] == ended;
  }

  lemma HoldStep(cal: Calendar, from: Instant, init: seq<Ended>, e: Ended, before: Instant, after: Instant)
    requires Regular(cal) && from <= e.since && before > e.since && e.since <= e.resumed
    requires forall i :: 0 <= i < |init| ==> init[i].resumed <= e.since
    requires KeepsRemaining(cal, e, Some(before), Some(after))
    ensures Worked(cal, from, init + [e], after) == Worked(cal, from, init, before)
  {
    WorkedTo(cal, from, init, e.since, before);
    assert (init + [e])[..|init|] == init;
  }

  // And the warning never passes the deadline.
  lemma {:induction false} HoldsKeepOrder(initial: Option<Sla>, ended: seq<Ended>)
    requires Ordered(initial) && forall i :: 0 <= i < |ended| ==> Monotone(ended[i].cal)
    ensures Ordered(AfterHolds(initial, ended))
    decreases |ended|
  {
    if ended != [] {
      HoldsKeepOrder(initial, ended[..|ended| - 1]);
      ShiftKeepsOrder(AfterHolds(initial, ended[..|ended| - 1]), ended[|ended| - 1]);
    }
  }
}
