/**
Ticket metrics in 64-bit arithmetic (internal/application/ticket_metrics.go): the
exact mean, the histogram and its width, the median and the ninetieth percentile,
and the period's totals.
*/
module Metrics {
  const Max64: int := 0x7FFF_FFFF_FFFF_FFFF

  // Durations are nanoseconds in a signed 64-bit integer; every operation on this
  // type is proved not to overflow.
  newtype Int64 = x: int | -0x8000_0000_0000_0000 <= x <= 0x7FFF_FFFF_FFFF_FFFF

  const Day: Int64 := 86_400_000_000_000

  function Sum(ds: seq<Int64>): int {
    if ds == [] then 0 else Sum(ds[..|ds| - 1]) + ds[|ds| - 1] as int
  }

  // ---- The mean -------------------------------------------------------------------

  lemma {:induction false} SumBound(ds: seq<Int64>)
    requires forall i :: 0 <= i < |ds| ==> 0 <= ds[i]
    ensures 0 <= Sum(ds) <= |ds| * Max64
    decreases |ds|
  {
    if ds != [] {
      SumBound(ds[..|ds| - 1]);
    }
  }

  lemma MulOrder(a: int, b: int, n: int)
    requires n > 0
    ensures a < b <==> a * n < b * n
  {
    assert (b - a) * n == b * n - a * n;
  }

  lemma DivIs(s: int, n: int, q: int)
    requires n > 0 && q * n <= s < (q + 1) * n
    ensures s / n == q
  {
    MulOrder(q, s / n + 1, n);
    MulOrder(s / n, q + 1, n);
  }

  // One duration more: the running quotient and remainder, and no overflow.
  lemma MeanStep(q: int, r: int, n: int, d: int, i: nat, before: int)
    requires 0 < n && i < n && 0 <= r < n && q * n + r == before && 0 <= d
    requires before + d <= (i + 1) * Max64
    ensures var dq, m := d / n, d % n;
            && 0 <= dq <= d && 0 <= m < n && q + dq <= Max64
            && (r >= n - m ==> q + dq + 1 <= Max64 && (q + dq + 1) * n + (r - (n - m)) == before + d)
            && (r < n - m ==> (q + dq) * n + (r + m) == before + d)
  {
    var dq, m := d / n, d % n;
    assert d == dq * n + m;
    assert (q + dq) * n == q * n + dq * n;
    assert (q + dq + 1) * n == (q + dq) * n + n;
    assert (i + 1) * Max64 <= n * Max64;
    assert (Max64 + 1) * n == Max64 * n + n;
    MulOrder(q + dq, Max64 + 1, n);
    MulOrder(q + dq + 1, Max64 + 1, n);
    DivShrinks(d, n);
  }

  lemma ProductGrows(x: int, n: int)
    requires 0 <= x && 1 <= n
    ensures x <= x * n
  {
    assert x * n == x * (n - 1) + x;
  }

  lemma DivShrinks(d: int, n: int)
    requires 0 <= d && 0 < n
    ensures 0 <= d / n <= d
  {
    QuotientOf(d, n);
    ProductGrows(d + 1, n);
    MulOrder(-1, d / n, n);
    MulOrder(d / n, d + 1, n);
  }

  lemma QuotientOf(d: int, n: int)
    requires 0 < n
    ensures (d / n) * n <= d < (d / n) * n + n
  {
  }

  // The floor of the exact mean, although the sum may not fit in 64 bits.
  method AverageDuration(ds: seq<Int64>) returns (mean: Int64)
    requires 0 < |ds| <= Max64 && forall i :: 0 <= i < |ds| ==> 0 <= ds[i]
    ensures mean as int == Sum(ds) / |ds|
  {
    var n: Int64 := |ds| as Int64;
    var quotient: Int64, remainder: Int64 := 0, 0;
    for i := 0 to |ds|
      invariant 0 <= remainder < n && 0 <= quotient
      invariant quotient as int * |ds| + remainder as int == Sum(ds[..i])
    {
      var d := ds[i];
      assert ds[..i + 1][..i] == ds[..i];
      SumBound(ds[..i + 1]);
      MeanStep(quotient as int, remainder as int, |ds|, d as int, i, Sum(ds[..i]));
      quotient := quotient + d / n;
      var mod := d % n;
      if remainder >= n - mod {
        quotient := quotient + 1;
        remainder := remainder - (n - mod);
        continue;
      }
      remainder := remainder + mod;
    }
    assert ds[..|ds|] == ds;
    assert (quotient as int + 1) * |ds| == quotient as int * |ds| + |ds|;
    DivIs(Sum(ds), |ds|, quotient as int);
    return quotient;
  }

  // ---- The histogram ----------------------------------------------------------------

  function Pow10(e: nat): nat { if e == 0 then 1 else 10 * Pow10(e - 1) }

  // One, two or five, times a power of ten.
  ghost predicate OneTwoFive(days: int) {
    exists e: nat :: days == Pow10(e) || days == 2 * Pow10(e) || days == 5 * Pow10(e)
  }

  // Seven bins of this many days reach beyond the longest duration.
  predicate FitsSeven(max: Int64, days: int) { (max as int) < 7 * days * Day as int }

  // That is: the longest duration falls into one of the first seven bins.
  lemma FitsSevenBins(max: Int64, days: int)
    requires 0 <= max && days > 0
    ensures FitsSeven(max, days) <==> max as int / (days * Day as int) + 1 <= 7
  {
    var w := days * Day as int;
    var q := max as int / w;
    QuotientOf(max as int, w);
    MulOrder(q, 7, w);
    MulOrder(6, q, w);
  }

  lemma {:induction false} PowPositive(e: nat)
    ensures Pow10(e) >= 1
  {
    if e > 0 {
      PowPositive(e - 1);
    }
  }

  lemma {:induction false} PowGrows(a: nat, b: nat)
    requires a <= b
    ensures 1 <= Pow10(a) <= Pow10(b) && (a < b ==> 10 * Pow10(a) <= Pow10(b))
    decreases b - a
  {
    PowPositive(a);
    if a < b {
      PowGrows(a, b - 1);
    }
  }

  lemma RoundWidthsBelow(e: nat, days: int)
    requires OneTwoFive(days) && days < 10 * Pow10(e)
    ensures days < Pow10(e) || days == Pow10(e) || days == 2 * Pow10(e) || days == 5 * Pow10(e)
  {
    var k: nat :| days == Pow10(k) || days == 2 * Pow10(k) || days == 5 * Pow10(k);
    if k < e {
      PowGrows(k, e);
    } else if k > e {
      PowGrows(e, k);
    }
  }

  // The smallest round width that needs at most seven bins, found without overflow
  // for every duration.
  method ResolutionHistogramWidth(max: Int64) returns (days: Int64, width: Int64)
    requires 0 <= max
    ensures 1 <= days <= 20000 && width as int == days as int * Day as int
    ensures OneTwoFive(days as int) && FitsSeven(max, days as int)
    ensures forall d: int :: 0 < d < days as int && OneTwoFive(d) ==> !FitsSeven(max, d)
  {
    var scale: Int64 := 1;
    ghost var e: nat := 0;
    var mults: seq<Int64> := [1, 2, 5];
    while true
      invariant e <= 4 && scale as int == Pow10(e) && 1 <= scale <= 10000
      invariant NoSmaller(max, scale as int)
      decreases 4 - e
    {
      for k := 0 to 3
        invariant forall j :: 0 <= j < k ==> !FitsSeven(max, mults[j] as int * scale as int)
      {
        Within(max, scale, mults, k);
        days := mults[k] * scale;
        width := days * Day;
        FitsSevenBins(max, days as int);
        if max / width + 1 <= 7 {
          assert k > 0 ==> !FitsSeven(max, mults[0] as int * scale as int);
          assert k > 1 ==> !FitsSeven(max, mults[1] as int * scale as int);
          SmallestRound(max, e, mults[k] as int);
          return;
        }
      }
      NextPower(max, e, mults);
      scale := scale * 10;
      e := e + 1;
    }
  }

  ghost predicate NoSmaller(max: Int64, bound: int) {
    forall d: int :: 0 < d < bound && OneTwoFive(d) ==> !FitsSeven(max, d)
  }

  // Twenty thousand days are wide enough for any 64-bit duration.
  lemma WideEnough(max: Int64)
    requires 0 <= max
    ensures FitsSeven(max, 20000)
  {
    assert max as int < 6 * (20000 * 86_400_000_000_000);
  }

  lemma Within(max: Int64, scale: Int64, mults: seq<Int64>, k: nat)
    requires 0 <= max && mults == [1, 2, 5] && k < 3 && 1 <= scale <= 10000
    requires scale == 10000 || scale <= 1000
    requires forall j :: 0 <= j < k ==> !FitsSeven(max, mults[j] as int * scale as int)
    ensures 1 <= mults[k] as int * scale as int <= 20000
  {
    WideEnough(max);
    assert k == 2 ==> !FitsSeven(max, mults[1] as int * scale as int);
  }

  lemma NextPower(max: Int64, e: nat, mults: seq<Int64>)
    requires 0 <= max && e <= 4 && mults == [1, 2, 5] && NoSmaller(max, Pow10(e)) && Pow10(e) >= 1
    requires forall j :: 0 <= j < 3 ==> !FitsSeven(max, mults[j] as int * Pow10(e))
    ensures e < 4 && NoSmaller(max, Pow10(e + 1))
  {
    WideEnough(max);
    assert e == 4 ==> Pow10(e) == 10000;
    assert !FitsSeven(max, mults[0] as int * Pow10(e)) && !FitsSeven(max, mults[1] as int * Pow10(e)) && !FitsSeven(max, mults[2] as int * Pow10(e));
    forall d: int | 0 < d < Pow10(e + 1) && OneTwoFive(d)
      ensures !FitsSeven(max, d)
    {
      RoundWidthsBelow(e, d);
    }
  }

  lemma SmallestRound(max: Int64, e: nat, mult: int)
    requires 0 <= max && Pow10(e) >= 1 && NoSmaller(max, Pow10(e)) && (mult == 1 || mult == 2 || mult == 5)
    requires mult > 1 ==> !FitsSeven(max, Pow10(e))
    requires mult > 2 ==> !FitsSeven(max, 2 * Pow10(e))
    ensures OneTwoFive(mult * Pow10(e)) && NoSmaller(max, mult * Pow10(e))
  {
    IsRound(e, mult);
    forall d: int | 0 < d < mult * Pow10(e) && OneTwoFive(d)
      ensures !FitsSeven(max, d)
    {
      RoundBelow(e, d, mult, Pow10(e));
    }
  }

  lemma IsRound(e: nat, mult: int)
    requires mult == 1 || mult == 2 || mult == 5
    ensures OneTwoFive(mult * Pow10(e))
  {
  }

  lemma RoundBelow(e: nat, d: int, mult: int, p: int)
    requires p == Pow10(e) && p >= 1 && (mult == 1 || mult == 2 || mult == 5) && 0 < d < mult * p && OneTwoFive(d)
    ensures d < p || (mult > 1 && d == p) || (mult > 2 && d == 2 * p)
  {
    RoundWidthsBelow(e, d);
  }

  // How many durations lie in the half-open range of bin `j`.
  function CountIn(ds: seq<Int64>, j: int, w: int): nat {
    if ds == [] then 0
    else CountIn(ds[..|ds| - 1], j, w) + if InBin(ds[|ds| - 1] as int, j, w) then 1 else 0
  }

  function Total(counts: seq<nat>): nat {
    if counts == [] then 0 else Total(counts[..|counts| - 1]) + counts[|counts| - 1]
  }

  lemma {:induction false} TotalUpdate(counts: seq<nat>, i: nat)
    requires i < |counts|
    ensures Total(counts[i := counts[i] + 1]) == Total(counts) + 1
    decreases |counts|
  {
    var init := counts[..|counts| - 1];
    if i < |init| {
      TotalUpdate(init, i);
      assert counts[i := counts[i] + 1][..|counts| - 1] == init[i := init[i] + 1];
    } else {
      assert counts[i := counts[i] + 1][..|counts| - 1] == init;
    }
  }

  lemma {:induction false} TotalZero(counts: seq<nat>)
    requires forall i :: 0 <= i < |counts| ==> counts[i] == 0
    ensures Total(counts) == 0
    decreases |counts|
  {
    if counts != [] {
      TotalZero(counts[..|counts| - 1]);
    }
  }

  method Longest(ds: seq<Int64>) returns (max: Int64)
    requires |ds| > 0
    ensures max in ds && forall i :: 0 <= i < |ds| ==> ds[i] <= max
  {
    max := ds[0];
    for i := 0 to |ds|
      invariant max in ds
      invariant forall j :: 0 <= j < i ==> ds[j] <= max
    {
      if ds[i] > max {
        max := ds[i];
      }
    }
  }

  // At most seven bins; bin `i` counts exactly the durations of its half-open range,
  // every duration is in one bin, and the last bin is not empty.
  method ResolutionHistogram(ds: seq<Int64>) returns (bins: seq<nat>, widthDays: Int64)
    requires forall i :: 0 <= i < |ds| ==> 0 <= ds[i]
    ensures ds == [] ==> bins == []
    ensures ds != [] ==> 0 < |bins| <= 7 && widthDays >= 1 && OneTwoFive(widthDays as int)
    ensures forall i :: 0 <= i < |bins| ==> bins[i] == CountIn(ds, i, widthDays as int * Day as int)
    ensures Total(bins) == |ds|
    ensures ds != [] ==> bins[|bins| - 1] > 0
  {
    if |ds| == 0 {
      return [], 1;
    }
    var max := Longest(ds);
    var width;
    widthDays, width := ResolutionHistogramWidth(max);
    FitsSevenBins(max, widthDays as int);
    bins := CountBins(ds, max, width);
  }

  method CountBins(ds: seq<Int64>, max: Int64, width: Int64) returns (bins: seq<nat>)
    requires max in ds && width > 0 && forall i :: 0 <= i < |ds| ==> 0 <= ds[i] <= max
    ensures |bins| == max as int / width as int + 1
    ensures forall i :: 0 <= i < |bins| ==> bins[i] == CountIn(ds, i, width as int)
    ensures Total(bins) == |ds| && bins[|bins| - 1] > 0
  {
    ghost var w := width as int;
    DivShrinks(max as int, w);
    bins := seq((max / width) as int + 1, _ => 0);
    TotalZero(bins);
    for i := 0 to |ds|
      invariant |bins| == max as int / w + 1
      invariant forall j :: 0 <= j < |bins| ==> bins[j] == CountIn(ds[..i], j, w)
      invariant Total(bins) == i
    {
      var at := BinOf(ds[i], max, width);
      InOneBin(ds[i] as int, w);
      TotalUpdate(bins, at);
      CountSnoc(ds, i, w);
      bins := bins[at := bins[at] + 1];
    }
    assert ds[..|ds|] == ds;
    LastBin(ds, max as int, w);
  }

  method BinOf(d: Int64, max: Int64, width: Int64) returns (at: nat)
    requires 0 <= d <= max && width > 0
    ensures at <= max as int / width as int
    ensures at == d as int / width as int && InBin(d as int, at, width as int)
  {
    DivMonotone(d as int, max as int, width as int);
    DivShrinks(d as int, width as int);
    InOneBin(d as int, width as int);
    at := (d / width) as int;
  }

  lemma CountSnoc(ds: seq<Int64>, i: nat, w: int)
    requires i < |ds|
    ensures forall j: int :: CountIn(ds[..i + 1], j, w) == CountIn(ds[..i], j, w) + if InBin(ds[i] as int, j, w) then 1 else 0
  {
    assert ds[..i + 1][..i] == ds[..i];
  }

  lemma {:induction false} LastBin(ds: seq<Int64>, max: int, w: int)
    requires w > 0 && 0 <= max && exists i :: 0 <= i < |ds| && ds[i] as int == max
    ensures CountIn(ds, max / w, w) > 0
    decreases |ds|
  {
    InOneBin(max, w);
    if ds[|ds| - 1] as int != max {
      var i :| 0 <= i < |ds| && ds[i] as int == max;
      assert ds[..|ds| - 1][i] as int == max;
      LastBin(ds[..|ds| - 1], max, w);
    }
  }

  lemma DivMonotone(a: int, b: int, w: int)
    requires 0 <= a <= b && w > 0
    ensures 0 <= a / w <= b / w
  {
    MulOrder(a / w, b / w + 1, w);
    MulOrder(-1, a / w, w);
  }

  lemma InOneBin(d: int, w: int)
    requires 0 <= d && w > 0
    ensures forall j: int :: InBin(d, j, w) <==> j == d / w
  {
    assert (d / w) * w <= d < (d / w + 1) * w;
    forall j: int | InBin(d, j, w)
      ensures j == d / w
    {
      DivIs(d, w, j);
    }
  }

  predicate InBin(d: int, j: int, w: int) { j * w <= d < (j + 1) * w }

  // ---- Order statistics ----------------------------------------------------------------

  predicate Sorted(ds: seq<Int64>) { forall i, j :: 0 <= i <= j < |ds| ==> ds[i] <= ds[j] }

  // The middle duration, or the floor of the mean of the two middle ones, without
  // overflow.
  method Median(sorted: seq<Int64>) returns (median: Int64)
    requires |sorted| > 0 && Sorted(sorted) && sorted[0] >= 0
    ensures var mid := |sorted| / 2;
            median as int == if |sorted| % 2 == 1 then sorted[mid] as int else (sorted[mid - 1] as int + sorted[mid] as int) / 2
  {
    var middle := |sorted| / 2;
    median := sorted[middle];
    if |sorted| % 2 == 0 {
      assert sorted[0] <= sorted[middle - 1] <= sorted[middle];
      median := sorted[middle - 1] + (sorted[middle] - sorted[middle - 1]) / 2;
    }
  }

  function CountAtMost(ds: seq<Int64>, x: Int64): nat {
    if ds == [] then 0 else CountAtMost(ds[..|ds| - 1], x) + if ds[|ds| - 1] <= x then 1 else 0
  }

  lemma {:induction false} CountSorted(ds: seq<Int64>, k: nat)
    requires Sorted(ds) && k < |ds|
    ensures k + 1 <= CountAtMost(ds, ds[k]) <= |ds|
    decreases |ds|
  {
    var init := ds[..|ds| - 1];
    CountBound(init, ds[k]);
    if k < |init| {
      CountSorted(init, k);
    } else {
      AllAtMost(init, ds[k]);
    }
  }

  // Fewer durations are at or below anything smaller than the one of rank `k`.
  lemma {:induction false} CountBelow(ds: seq<Int64>, k: nat, x: Int64)
    requires Sorted(ds) && k < |ds| && x < ds[k]
    ensures CountAtMost(ds, x) <= k
    decreases |ds|
  {
    var init := ds[..|ds| - 1];
    assert ds[k] <= ds[|ds| - 1];
    if k < |init| {
      CountBelow(init, k, x);
    } else {
      CountBound(init, x);
    }
  }

  lemma {:induction false} CountBound(ds: seq<Int64>, x: Int64)
    ensures CountAtMost(ds, x) <= |ds|
    decreases |ds|
  {
    if ds != [] {
      CountBound(ds[..|ds| - 1], x);
    }
  }

  lemma {:induction false} AllAtMost(ds: seq<Int64>, x: Int64)
    requires forall i :: 0 <= i < |ds| ==> ds[i] <= x
    ensures CountAtMost(ds, x) == |ds|
    decreases |ds|
  {
    if ds != [] {
      AllAtMost(ds[..|ds| - 1], x);
    }
  }

  // The smallest duration with at least n - n/10 of them at or below it; so at most n/10
  // are above.
  method P90(sorted: seq<Int64>) returns (p: Int64)
    requires |sorted| > 0 && Sorted(sorted)
    ensures p in sorted
    ensures CountAtMost(sorted, p) >= |sorted| - |sorted| / 10
    ensures |sorted| - CountAtMost(sorted, p) <= |sorted| / 10
    ensures forall x :: x < p ==> CountAtMost(sorted, x) < |sorted| - |sorted| / 10
  {
    var at := |sorted| - |sorted| / 10 - 1;
    CountSorted(sorted, at);
    forall x | x < sorted[at]
      ensures CountAtMost(sorted, x) < |sorted| - |sorted| / 10
    {
      CountBelow(sorted, at, x);
    }
    p := sorted[at];
  }
}
