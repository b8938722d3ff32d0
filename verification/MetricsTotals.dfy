/**
The period report's totals (buildTicketMetrics of internal/application/
ticket_metrics.go): every table of the report adds up to the number beside it.
*/
module MetricsTotals {
  import opened Core
  import opened Tickets

  const DayNs: int := 86_400_000_000_000
  const WeekNs: int := 7 * DayNs
  const MaxSpan: int := 0x7FFF_FFFF_FFFF_FFFF
  const MinSpan: int := -0x8000_0000_0000_0000

  // A missing instant is None.
  datatype Record = Record(
    state: State, created: Option<Instant>, resolved: Option<Instant>, resolutionWeek: Instant,
    agent: Option<int>, desk: Option<int>)

  datatype WorkKey = AgentKey(agent: Option<int>) | DeskKey(desk: Option<int>)

  datatype Backlog = Backlog(pending: nat, unassigned: nat, ages: seq<nat>)

  datatype Resolution = Resolution(resolved: nat, excluded: nat, samples: seq<int>, weeks: map<Instant, nat>)

  datatype Creation = Creation(created: nat, weeks: map<Instant, nat>)

  datatype Totals = Totals(backlog: Backlog, work: map<WorkKey, nat>, resolution: Resolution, creation: Creation)

  // The elapsed time between two instants saturates at 64 bits.
  function Span(from: Instant, to: Instant): int {
    if to - from > MaxSpan then MaxSpan else if to - from < MinSpan then MinSpan else to - from
  }

  // Division truncates towards zero.
  function Truncated(a: int, b: int): int
    requires b > 0
  {
    if a >= 0 then a / b else -((-a) / b)
  }

  function DateUtc(t: Instant): Instant { t - t % DayNs }

  // The Monday of the week: day zero is a Thursday.
  function Monday(t: Instant): Instant { DateUtc(t) - ((t / DayNs + 3) % 7) * DayNs }

  function AgeBucket(now: Instant, r: Record): nat {
    if r.created.None? then 3
    else
      var age := Truncated(Span(r.created.value, now), DayNs);
      if age <= 2 then 0 else if age <= 7 then 1 else if age <= 14 then 2 else 3
  }

  // The bucket by the ticket's age itself: less than three whole days, less than eight,
  // less than fifteen, more.
  predicate InBucket(now: Instant, r: Record, b: nat) {
    if r.created.None? then b == 3
    else
      var age := now - r.created.value;
      match b
      case 0 => age < 3 * DayNs
      case 1 => 3 * DayNs <= age < 8 * DayNs
      case 2 => 8 * DayNs <= age < 15 * DayNs
      case 3 => 15 * DayNs <= age
      case _ => false
  }

  lemma AgeBucketIs(now: Instant, r: Record, b: nat)
    ensures AgeBucket(now, r) == b <==> InBucket(now, r, b)
  {
    if r.created.Some? {
      var span := Span(r.created.value, now);
      if span >= 0 {
        assert span == (span / DayNs) * DayNs + span % DayNs;
      }
    }
  }

  function KeyOf(r: Record, byDesk: bool): WorkKey { if byDesk then DeskKey(r.desk) else AgentKey(r.agent) }

  // ---- Counting -------------------------------------------------------------------

  function Count(rs: seq<Record>, p: Record -> bool): nat {
    if rs == [] then 0 else Count(rs[..|rs| - 1], p) + if p(rs[|rs| - 1]) then 1 else 0
  }

  function Pending(): Record -> bool { (r: Record) => !IsClosed(r.state) }
  function Unassigned(): Record -> bool { (r: Record) => !IsClosed(r.state) && r.agent.None? }
  function Aged(now: Instant, b: nat): Record -> bool { (r: Record) => !IsClosed(r.state) && InBucket(now, r, b) }
  function WorkedBy(agent: Option<int>): Record -> bool { (r: Record) => !IsClosed(r.state) && r.agent == agent }
  function WorkedAt(desk: Option<int>): Record -> bool { (r: Record) => !IsClosed(r.state) && r.desk == desk }
  // The window the created count uses: one more day than the period's exclusive end.
  function CreatedIn(start: Instant, end: Instant): Record -> bool {
    (r: Record) => r.created.Some? && start <= r.created.value < end + DayNs
  }
  function CreatedWeek(start: Instant, end: Instant, w: Instant): Record -> bool {
    (r: Record) => r.created.Some? && start <= r.created.value < end + DayNs && w <= r.created.value < w + WeekNs
  }
  function Settled(): Record -> bool { (r: Record) => r.resolved.Some? }
  function SettledWeek(w: Instant): Record -> bool { (r: Record) => r.resolved.Some? && w <= r.resolutionWeek < w + WeekNs }
  function Unmeasured(): Record -> bool {
    (r: Record) => r.resolved.Some? && (r.created.None? || r.resolved.value < r.created.value)
  }

  // The elapsed times of the resolved records that can be measured, in order.
  function Elapsed(rs: seq<Record>): seq<int> {
    if rs == [] then []
    else
      var r := rs[|rs| - 1];
      Elapsed(rs[..|rs| - 1]) +
      if r.resolved.Some? && r.created.Some? && r.created.value <= r.resolved.value
      then [if r.resolved.value - r.created.value <= MaxSpan then r.resolved.value - r.created.value else MaxSpan]
      else []
  }

  lemma CountSnoc(rs: seq<Record>, i: nat, p: Record -> bool)
    requires i < |rs|
    ensures Count(rs[..i + 1], p) == Count(rs[..i], p) + if p(rs[i]) then 1 else 0
  {
    assert rs[..i + 1][..i] == rs[..i];
  }

  ghost function MapTotal<K>(m: map<K, nat>): nat
    decreases |m|
  {
    if m == map[] then 0
    else
      var k :| k in m;
      m[k] + MapTotal(m - {k})
  }

  lemma {:induction false} MapTotalPick<K>(m: map<K, nat>, k: K)
    requires k in m
    ensures MapTotal(m) == m[k] + MapTotal(m - {k})
    decreases |m|
  {
    var j :| j in m && MapTotal(m) == m[j] + MapTotal(m - {j});
    if j != k {
      MapTotalPick(m - {j}, k);
      MapTotalPick(m - {k}, j);
      assert m - {j} - {k} == m - {k} - {j};
    }
  }

  lemma MapTotalAdd<K>(m: map<K, nat>, k: K)
    ensures MapTotal(m[k := (if k in m then m[k] else 0) + 1]) == MapTotal(m) + 1
  {
    var m' := m[k := (if k in m then m[k] else 0) + 1];
    MapTotalPick(m', k);
    if k in m {
      MapTotalPick(m, k);
      assert m' - {k} == m - {k};
    } else {
      assert m' - {k} == m;
    }
  }

  lemma {:induction false} MapTotalZero<K>(m: map<K, nat>)
    requires forall k :: k in m ==> m[k] == 0
    ensures MapTotal(m) == 0
    decreases |m|
  {
    if m != map[] {
      var k :| k in m;
      MapTotalPick(m, k);
      MapTotalZero(m - {k});
    }
  }

  // ---- The weeks of the period ------------------------------------------------------

  lemma MondayFacts(t: Instant)
    ensures Monday(t) <= DateUtc(t) <= t < DateUtc(t) + DayNs && t < Monday(t) + WeekNs
    ensures (Monday(t) - 4 * DayNs) % WeekNs == 0
  {
    var d := t / DayNs;
    var k := (d + 3) % 7;
    assert DateUtc(t) == d * DayNs;
    assert Monday(t) - 4 * DayNs == (d - k - 4) * DayNs;
    assert (d + 3 - k) % 7 == 0;
    var q := (d + 3) / 7;
    assert d - k - 4 == 7 * (q - 1);
    assert Monday(t) - 4 * DayNs == (q - 1) * WeekNs;
  }

  // A Monday is the Monday of exactly the instants of its week.
  lemma MondayIs(start: Instant, w: Instant, t: Instant)
    requires OnRow(Monday(start), w)
    ensures Monday(t) == w <==> w <= t < w + WeekNs
  {
    MondayFacts(t);
    WeeksApart(start, w, t);
    var m := Monday(t);
    if w <= t < w + WeekNs {
      OneMonday(m - w);
    }
  }

  lemma WeeksApart(start: Instant, w: Instant, t: Instant)
    requires OnRow(Monday(start), w)
    ensures (Monday(t) - w) % WeekNs == 0
  {
    MondayFacts(start);
    MondayFacts(t);
    SameResidue(Monday(t) - 4 * DayNs, Monday(start) - 4 * DayNs);
  }

  lemma OneMonday(d: int)
    requires d % WeekNs == 0 && -WeekNs < d < WeekNs
    ensures d == 0
  {
  }

  // A whole number of weeks after the first.
  predicate OnRow(first: Instant, w: Instant) { first <= w && (w - first) % WeekNs == 0 }

  // Every week of the period, from the Monday of its start to the last Monday not
  // after its end.
  method Weeks(start: Instant, end: Instant) returns (weeks: map<Instant, nat>)
    ensures forall w :: w in weeks <==> OnRow(Monday(start), w) && w <= end
    ensures forall w :: w in weeks ==> weeks[w] == 0
  {
    weeks := map[];
    var w := Monday(start);
    ghost var n := 0;
    while w <= end
      invariant n >= 0 && w == Monday(start) + n * WeekNs
      invariant forall v :: v in weeks <==> OnRow(Monday(start), v) && v < w && v <= end
      invariant forall v :: v in weeks ==> weeks[v] == 0
      decreases end - w
    {
      NextWeek(Monday(start), n);
      weeks := weeks[w := 0];
      w := w + WeekNs;
      n := n + 1;
    }
  }

  // Between two Mondays of the row there is no third.
  lemma NextWeek(first: Instant, n: int)
    requires n >= 0
    ensures forall v :: OnRow(first, v) && first + n * WeekNs <= v < first + n * WeekNs + WeekNs ==> v == first + n * WeekNs
    ensures OnRow(first, first + n * WeekNs)
  {
  }

  // A ticket created in the window belongs to one of the weeks.
  lemma WindowInWeeks(start: Instant, end: Instant, t: Instant)
    requires end % DayNs == 0 && start <= t < end + DayNs
    ensures OnRow(Monday(start), Monday(t)) && Monday(t) <= end
  {
    MondayFacts(start);
    MondayFacts(t);
    SameResidue(Monday(t) - 4 * DayNs, Monday(start) - 4 * DayNs);
    assert Monday(t) > Monday(start) - WeekNs;
    assert DateUtc(t) <= end;
  }

  lemma SameResidue(a: int, b: int)
    requires a % WeekNs == 0 && b % WeekNs == 0
    ensures (a - b) % WeekNs == 0
    ensures a > b - WeekNs ==> a >= b
  {
  }

  // ---- The report ----------------------------------------------------------------------

  // What each table has counted over a list of records.
  ghost predicate Ages(rs: seq<Record>, now: Instant, m: Backlog) {
    && m.pending == Count(rs, Pending()) && m.unassigned == Count(rs, Unassigned())
    && |m.ages| == 4 && (forall b :: 0 <= b < 4 ==> m.ages[b] == Count(rs, Aged(now, b)))
    && m.ages[0] + m.ages[1] + m.ages[2] + m.ages[3] == m.pending
  }

  function Rows(work: map<WorkKey, nat>, k: WorkKey): nat { if k in work then work[k] else 0 }

  ghost predicate Workload(rs: seq<Record>, byDesk: bool, work: map<WorkKey, nat>) {
    && (forall k :: k in work ==> k.DeskKey? == byDesk)
    && (!byDesk ==> forall a :: Rows(work, AgentKey(a)) == Count(rs, WorkedBy(a)))
    && (byDesk ==> forall d :: Rows(work, DeskKey(d)) == Count(rs, WorkedAt(d)))
    && MapTotal(work) == Count(rs, Pending())
  }

  ghost predicate Resolutions(rs: seq<Record>, start: Instant, end: Instant, m: Resolution) {
    && m.resolved == Count(rs, Settled())
    && m.samples == Elapsed(rs) && m.excluded == Count(rs, Unmeasured())
    && |m.samples| + m.excluded == m.resolved
    && MapTotal(m.weeks) <= m.resolved
    && (forall w :: w in m.weeks <==> OnRow(Monday(start), w) && w <= end)
    && forall w :: w in m.weeks ==> m.weeks[w] == Count(rs, SettledWeek(w))
  }

  ghost predicate Creations(rs: seq<Record>, start: Instant, end: Instant, m: Creation) {
    && m.created == Count(rs, CreatedIn(start, end))
    && MapTotal(m.weeks) == m.created
    && (forall w :: w in m.weeks <==> OnRow(Monday(start), w) && w <= end)
    && forall w :: w in m.weeks ==> m.weeks[w] == Count(rs, CreatedWeek(start, end, w))
  }

  method CountAge(r: Record, now: Instant, before: Backlog, ghost rs: seq<Record>, ghost i: nat) returns (m: Backlog)
    requires i < |rs| && r == rs[i] && Ages(rs[..i], now, before)
    ensures Ages(rs[..i + 1], now, m)
  {
    m := before;
    CountSnoc(rs, i, Pending());
    CountSnoc(rs, i, Unassigned());
    forall b: nat | b < 4
      ensures Count(rs[..i + 1], Aged(now, b)) == Count(rs[..i], Aged(now, b)) + if Aged(now, b)(r) then 1 else 0
      ensures AgeBucket(now, r) == b <==> InBucket(now, r, b)
    {
      CountSnoc(rs, i, Aged(now, b));
      AgeBucketIs(now, r, b);
    }
    if r.state == New || r.state == InProgress {
      var bucket := AgeBucket(now, r);
      m := Backlog(m.pending + 1, if r.agent.None? then m.unassigned + 1 else m.unassigned,
                   m.ages[bucket := m.ages[bucket] + 1]);
    }
  }

  method CountWork(r: Record, byDesk: bool, before: map<WorkKey, nat>, ghost rs: seq<Record>,
      ghost i: nat) returns (work: map<WorkKey, nat>)
    requires i < |rs| && r == rs[i] && Workload(rs[..i], byDesk, before)
    ensures Workload(rs[..i + 1], byDesk, work)
  {
    work := before;
    CountSnoc(rs, i, Pending());
    forall a
      ensures Count(rs[..i + 1], WorkedBy(a)) == Count(rs[..i], WorkedBy(a)) + if WorkedBy(a)(r) then 1 else 0
    {
      CountSnoc(rs, i, WorkedBy(a));
    }
    forall d
      ensures Count(rs[..i + 1], WorkedAt(d)) == Count(rs[..i], WorkedAt(d)) + if WorkedAt(d)(r) then 1 else 0
    {
      CountSnoc(rs, i, WorkedAt(d));
    }
    if r.state == New || r.state == InProgress {
      var key := KeyOf(r, byDesk);
      MapTotalAdd(work, key);
      work := work[key := (if key in work then work[key] else 0) + 1];
    }
  }

  method CountResolution(r: Record, start: Instant, end: Instant, before: Resolution, ghost rs: seq<Record>,
      ghost i: nat) returns (m: Resolution)
    requires i < |rs| && r == rs[i] && Resolutions(rs[..i], start, end, before)
    ensures Resolutions(rs[..i + 1], start, end, m)
  {
    m := before;
    CountSnoc(rs, i, Settled());
    CountSnoc(rs, i, Unmeasured());
    assert rs[..i + 1][..i] == rs[..i];
    forall w | w in m.weeks
      ensures Count(rs[..i + 1], SettledWeek(w)) == Count(rs[..i], SettledWeek(w)) + if SettledWeek(w)(r) then 1 else 0
      ensures Monday(r.resolutionWeek) == w <==> w <= r.resolutionWeek < w + WeekNs
    {
      CountSnoc(rs, i, SettledWeek(w));
      MondayIs(start, w, r.resolutionWeek);
    }
    if r.resolved.None? {
      return;
    }
    m := m.(resolved := m.resolved + 1);
    var week := Monday(r.resolutionWeek);
    if week in m.weeks {
      MapTotalAdd(m.weeks, week);
      m := m.(weeks := m.weeks[week := m.weeks[week] + 1]);
    }
    if r.created.None? || r.resolved.value < r.created.value {
      m := m.(excluded := m.excluded + 1);
      return;
    }
    m := m.(samples := m.samples + [Span(r.created.value, r.resolved.value)]);
  }

  method CountCreation(r: Record, start: Instant, end: Instant, before: Creation, ghost rs: seq<Record>,
      ghost i: nat) returns (m: Creation)
    requires i < |rs| && r == rs[i] && end % DayNs == 0 && Creations(rs[..i], start, end, before)
    ensures Creations(rs[..i + 1], start, end, m)
  {
    m := before;
    CountSnoc(rs, i, CreatedIn(start, end));
    forall w | w in m.weeks
      ensures Count(rs[..i + 1], CreatedWeek(start, end, w)) == Count(rs[..i], CreatedWeek(start, end, w)) + if CreatedWeek(start, end, w)(r) then 1 else 0
      ensures r.created.Some? ==> (Monday(r.created.value) == w <==> w <= r.created.value < w + WeekNs)
    {
      CountSnoc(rs, i, CreatedWeek(start, end, w));
      if r.created.Some? {
        MondayIs(start, w, r.created.value);
      }
    }
    if r.created.None? || r.created.value < start || r.created.value >= end + DayNs {
      return;
    }
    var week := Monday(r.created.value);
    WindowInWeeks(start, end, r.created.value);
    m := m.(created := m.created + 1);
    if week in m.weeks {
      MapTotalAdd(m.weeks, week);
      m := m.(weeks := m.weeks[week := m.weeks[week] + 1]);
    }
  }

  // Pending is the sum of the age buckets and of the workload rows; resolved is the
  // measured samples and the excluded; created is the sum of its weeks, because every
  // ticket of the window has its week in the table.  Every count is of exactly the
  // records it is about, and the samples are their elapsed times.
  method BuildTicketMetrics(records: seq<Record>, start: Instant, end: Instant, byDesk: bool,
      now: Instant) returns (m: Totals)
    requires end % DayNs == 0
    ensures Ages(records, now, m.backlog) && Workload(records, byDesk, m.work)
    ensures Resolutions(records, start, end, m.resolution) && Creations(records, start, end, m.creation)
  {
    var weeks := Weeks(start, end);
    assert forall w :: w in weeks ==> weeks[w] == 0;
    MapTotalZero(weeks);
    var backlog, work, resolution, creation := Backlog(0, 0, [0, 0, 0, 0]), map[], Resolution(0, 0, [], weeks), Creation(0, weeks);
    for i := 0 to |records|
      invariant Ages(records[..i], now, backlog) && Workload(records[..i], byDesk, work) && Resolutions(records[..i], start, end, resolution)
    {
      backlog := CountAge(records[i], now, backlog, records, i);
      work := CountWork(records[i], byDesk, work, records, i);
      resolution := CountResolution(records[i], start, end, resolution, records, i);
    }
    for i := 0 to |records|
      invariant Creations(records[..i], start, end, creation)
    {
      creation := CountCreation(records[i], start, end, creation, records, i);
    }
    assert records[..|records|] == records;
    return Totals(backlog, work, resolution, creation);
  }
}
