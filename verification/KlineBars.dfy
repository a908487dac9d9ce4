/** K-line bars, built tick by tick and from finer bars. Prices and turnover are exact numbers and
    volumes do not overflow; the calendar bucket of a trading day is given with the tick. */
module KlineBars {
  import opened Options
  import opened OrderedMap
  import opened Sequences
  import Words

  datatype Bar = Bar(timestamp: int, open: real, high: real, low: real, close: real, volume: int, turnover: real)

  function Max(a: real, b: real): (m: real)
    ensures a <= m && b <= m && (m == a || m == b)
  {
    if a < b then b else a
  }

  function Min(a: real, b: real): (m: real)
    ensures m <= a && m <= b && (m == a || m == b)
  {
    if b < a then b else a
  }

  function NonNegative(n: int): (r: int)
    ensures n <= r && 0 <= r && (r == n || r == 0)
  {
    if n < 0 then 0 else n
  }

  function NonNegativeReal(x: real): (r: real)
    ensures x <= r && 0.0 <= r && (r == x || r == 0.0)
  {
    if x < 0.0 then 0.0 else x
  }

  /** A multiple of the width. */
  predicate OnGrid(b: int, width: nat)
    requires width > 0
  {
    b % width == 0
  }

  /** The start of the bucket of the given width that holds a positive timestamp: the one multiple of
      the width from which the timestamp is less than a width away. */
  function Bucket(timestamp: int, width: nat): (b: int)
    requires timestamp > 0 && width > 0
    ensures 0 <= b <= timestamp < b + width && OnGrid(b, width)
  {
    var b := timestamp - timestamp % width;
    BucketOnGrid(timestamp, width);
    b
  }

  lemma BucketOnGrid(timestamp: int, width: nat)
    requires width > 0
    ensures OnGrid(timestamp - timestamp % width, width)
  {
    Words.ModIs(timestamp - timestamp % width, width, timestamp / width, 0);
  }

  /** Two timestamps share a bucket exactly when they lie in the same multiple of the width. */
  lemma SameBucket(s: int, t: int, width: nat)
    requires s > 0 && t > 0 && width > 0
    ensures Bucket(s, width) == Bucket(t, width) <==> s / width == t / width
  {
    var k, m := s / width, t / width;
    assert s == width * k + s % width && t == width * m + t % width;
    if k != m {
      Words.Scale(width, if k < m then m - k else k - m);
      Words.Distribute(width, k, m);
      Words.Distribute(width, m, k);
    }
  }

  // ----- aggregation -----

  function Opened(bucket: int, b: Bar): Bar
  {
    Bar(bucket, b.open, b.high, b.low, b.close, NonNegative(b.volume), NonNegativeReal(b.turnover))
  }

  function Extended(bar: Bar, b: Bar): Bar
  {
    bar.(high := Max(bar.high, b.high), low := Min(bar.low, b.low), close := b.close,
         volume := bar.volume + NonNegative(b.volume), turnover := bar.turnover + NonNegativeReal(b.turnover))
  }

  predicate Continues(bars: seq<Bar>, bucket: int)
  {
    bars != [] && bars[|bars| - 1].timestamp == bucket
  }

  /** A bar goes into the last bucket if it is the same one, and otherwise opens a new one. */
  function Into(bars: seq<Bar>, bucket: int, b: Bar): (r: seq<Bar>)
    ensures |r| == |bars| + (if Continues(bars, bucket) then 0 else 1)
    ensures r[..|r| - 1] == if Continues(bars, bucket) then bars[..|bars| - 1] else bars
    ensures r[|r| - 1] == if Continues(bars, bucket) then Extended(bars[|bars| - 1], b) else Opened(bucket, b)
  {
    if Continues(bars, bucket)
    then bars[..|bars| - 1] + [Extended(bars[|bars| - 1], b)]
    else bars + [Opened(bucket, b)]
  }

  function Absorb(bars: seq<Bar>, width: nat, b: Bar): seq<Bar>
    requires width > 0
  {
    if b.timestamp <= 0 then bars else Into(bars, Bucket(b.timestamp, width), b)
  }

  function Aggregate(width: nat, bars: seq<Bar>): seq<Bar>
    requires width > 0
    decreases |bars|
  {
    if bars == [] then []
    else Absorb(Aggregate(width, bars[..|bars| - 1]), width, bars[|bars| - 1])
  }

  lemma {:induction false} AggregateSnoc(width: nat, bars: seq<Bar>, b: Bar)
    requires width > 0
    ensures Aggregate(width, bars + [b]) == Absorb(Aggregate(width, bars), width, b)
  {
    assert (bars + [b])[..|bars|] == bars;
  }

  // ----- aggregating in two steps -----

  /** The bars an aggregation to the given width leaves with a positive timestamp. */
  predicate Lasting(width: nat, b: Bar)
  {
    b.timestamp >= width
  }

  function LastingOnly(width: nat, bars: seq<Bar>): seq<Bar>
    decreases |bars|
  {
    if bars == [] then []
    else
      var rest := LastingOnly(width, bars[..|bars| - 1]);
      if Lasting(width, bars[|bars| - 1]) then rest + [bars[|bars| - 1]] else rest
  }

  lemma {:induction false} LastingSnoc(width: nat, bars: seq<Bar>, b: Bar)
    ensures LastingOnly(width, bars + [b]) == if Lasting(width, b) then LastingOnly(width, bars) + [b] else LastingOnly(width, bars)
  {
    assert (bars + [b])[..|bars|] == bars;
  }

  /** Aggregated bars carry no negative amounts. */
  predicate Clean(bars: seq<Bar>)
  {
    forall i :: 0 <= i < |bars| ==> bars[i].volume >= 0 && bars[i].turnover >= 0.0
  }

  lemma IntoIsClean(bars: seq<Bar>, k: int, b: Bar)
    requires Clean(bars)
    ensures Clean(Into(bars, k, b))
  {
    var r := Into(bars, k, b);
    forall i | 0 <= i < |r| ensures r[i].volume >= 0 && r[i].turnover >= 0.0 {
      if i < |r| - 1 { assert r[i] == r[..|r| - 1][i]; }
    }
  }

  lemma {:induction false} AggregateIsClean(width: nat, bars: seq<Bar>)
    requires width > 0
    ensures Clean(Aggregate(width, bars))
    decreases |bars|
  {
    if bars != [] {
      AggregateIsClean(width, bars[..|bars| - 1]);
      var before, b := Aggregate(width, bars[..|bars| - 1]), bars[|bars| - 1];
      if b.timestamp > 0 { IntoIsClean(before, Bucket(b.timestamp, width), b); }
    }
  }

  /** A coarser bucket does not care which finer bucket a timestamp was rounded to. */
  lemma BucketOfBucket(t: int, p: nat, n: nat)
    requires t > 0 && p > 0 && n > 0 && Bucket(t, p) > 0
    ensures Bucket(Bucket(t, p), n * p) == Bucket(t, n * p)
  {
    var q := n * p;
    var k, r := t / p, t % p;
    var big, rest := t / q, t % q;
    assert t == p * k + r && t == q * big + rest;
    BucketArithmetic(t, p, n, k, r, big, rest);
  }

  lemma BucketArithmetic(t: int, p: nat, n: nat, k: int, r: int, big: int, rest: int)
    requires t > 0 && p > 0 && n > 0 && t == p * k + r && 0 <= r < p
    requires t == (n * p) * big + rest && 0 <= rest < n * p && k > 0
    ensures p * k - (p * k) % (n * p) == (n * p) * big
  {
    // p*k lies in the same coarse bucket as t
    assert (n * p) * big == p * (n * big) by { MulAssoc(n, p, big); }
    assert p * (k - n * big) == rest - r by { MulDistribute(p, k, n * big); }
    if k - n * big < 0 { MulNegative(p, k - n * big); }
    assert 0 <= rest - r < n * p;
    ModUnique(p * k, n * p, big, rest - r);
  }

  lemma MulAssoc(a: int, b: int, c: int)
    ensures (a * b) * c == b * (a * c)
  {}

  lemma MulDistribute(a: int, b: int, c: int)
    ensures a * (b - c) == a * b - a * c
  {}

  lemma MulNegative(p: nat, d: int)
    requires p > 0 && d < 0
    ensures p * d + p <= 0
  {}

  lemma ModUnique(x: int, n: nat, q: int, r: nat)
    requires n > 0 && r < n && x == n * q + r
    ensures x % n == r
  {
    Words.ModIs(x, n, q, r);
  }

  lemma ExtendInStages(x: Bar, l: Bar, b: Bar, bucket: int)
    requires l.volume >= 0 && l.turnover >= 0.0
    ensures Extended(Extended(x, l), b) == Extended(x, Extended(l, b))
    ensures Extended(Opened(bucket, l), b) == Opened(bucket, Extended(l, b))
  {}

  lemma FrontAndLast<T>(a: seq<T>, b: seq<T>)
    requires |a| == |b| > 0 && a[..|a| - 1] == b[..|b| - 1] && a[|a| - 1] == b[|b| - 1]
    ensures a == b
  {
    assert a == a[..|a| - 1] + [a[|a| - 1]] && b == b[..|b| - 1] + [b[|b| - 1]];
  }

  lemma OpenedStamp(bars: seq<Bar>, bucket: int, b: Bar)
    ensures Continues(Into(bars, bucket, b), bucket)
  {}

  /** Taking b after l in the same coarse bucket is taking l extended by b. */
  lemma IntoInStages(bars: seq<Bar>, bucket: int, l: Bar, b: Bar)
    requires l.volume >= 0 && l.turnover >= 0.0
    ensures Into(Into(bars, bucket, l), bucket, b) == Into(bars, bucket, Extended(l, b))
  {
    var last := if bars == [] then l else bars[|bars| - 1];
    ExtendInStages(last, l, b, bucket);
    OpenedStamp(bars, bucket, l);
    FrontAndLast(Into(Into(bars, bucket, l), bucket, b), Into(bars, bucket, Extended(l, b)));
  }

  lemma OpenedInto(bars: seq<Bar>, bucket: int, fine: int, b: Bar)
    ensures Into(bars, bucket, Opened(fine, b)) == Into(bars, bucket, b)
  {}

  /** A bar taken into fine bucket k, then aggregated to buckets of width q. */
  lemma {:induction false} CoarseInto(fine: seq<Bar>, q: nat, k: nat, b: Bar)
    requires q > 0 && Clean(fine)
    ensures Aggregate(q, Into(fine, k, b))
      == if k > 0 then Into(Aggregate(q, fine), Bucket(k, q), b) else Aggregate(q, fine)
  {
    if Continues(fine, k) {
      var front, last := fine[..|fine| - 1], fine[|fine| - 1];
      assert fine == front + [last];
      AggregateSnoc(q, front, last);
      AggregateSnoc(q, front, Extended(last, b));
      if k > 0 { IntoInStages(Aggregate(q, front), Bucket(k, q), last, b); }
    } else {
      AggregateSnoc(q, fine, Opened(k, b));
      if k > 0 { OpenedInto(Aggregate(q, fine), Bucket(k, q), k, b); }
    }
  }

  /** One more bar, aggregated in two steps. */
  lemma {:induction false} TwoSteps(fine: seq<Bar>, p: nat, n: nat, q: nat, b: Bar)
    requires p > 0 && n > 0 && q == n * p && q > 0 && Clean(fine)
    ensures Aggregate(q, Absorb(fine, p, b)) == if Lasting(p, b) then Absorb(Aggregate(q, fine), q, b) else Aggregate(q, fine)
  {
    if b.timestamp > 0 {
      var k := Bucket(b.timestamp, p);
      CoarseInto(fine, q, k, b);
      LastingBucket(b.timestamp, p);
      if k > 0 { BucketOfBucket(b.timestamp, p, n); }
    }
  }

  lemma LastingBucket(t: int, p: nat)
    requires t > 0 && p > 0
    ensures Bucket(t, p) > 0 <==> t >= p
  {
    if t < p { Words.ModIs(t, p, 0, t); }
  }

  /** Aggregation composes: to a width and then to a multiple of it is straight to the multiple,
      but for the bars of the very first fine bucket, which the first step labels zero. */
  lemma {:induction false} AggregateComposes(p: nat, n: nat, q: nat, bars: seq<Bar>)
    requires p > 0 && n > 0 && q == n * p && q > 0
    ensures Aggregate(q, Aggregate(p, bars)) == Aggregate(q, LastingOnly(p, bars))
    decreases |bars|
  {
    if bars != [] {
      var front, b := bars[..|bars| - 1], bars[|bars| - 1];
      AggregateComposes(p, n, q, front);
      AggregateIsClean(p, front);
      TwoSteps(Aggregate(p, front), p, n, q, b);
      AggregateSnoc(q, LastingOnly(p, front), b);
    }
  }

  lemma {:induction false} AllLasting(width: nat, bars: seq<Bar>)
    requires forall i :: 0 <= i < |bars| ==> bars[i].timestamp <= 0 || Lasting(width, bars[i])
    requires width > 0
    ensures forall coarse: nat :: coarse > 0 ==> Aggregate(coarse, LastingOnly(width, bars)) == Aggregate(coarse, bars)
    decreases |bars|
  {
    if bars != [] {
      var front, b := bars[..|bars| - 1], bars[|bars| - 1];
      AllLasting(width, front);
      forall coarse: nat | coarse > 0 ensures Aggregate(coarse, LastingOnly(width, bars)) == Aggregate(coarse, bars) {
        AggregateSnoc(coarse, LastingOnly(width, front), b);
      }
    }
  }

  /** Every bar starts on a multiple of the width. */
  ghost predicate Gridded(bars: seq<Bar>, width: nat)
    requires width > 0
  {
    forall i :: 0 <= i < |bars| ==> bars[i].timestamp >= 0 && OnGrid(bars[i].timestamp, width)
  }

  lemma IntoGridded(bars: seq<Bar>, width: nat, k: int, b: Bar)
    requires width > 0 && Gridded(bars, width) && k >= 0 && OnGrid(k, width)
    ensures Gridded(Into(bars, k, b), width)
  {
    var r := Into(bars, k, b);
    forall i | 0 <= i < |r| ensures r[i].timestamp >= 0 && OnGrid(r[i].timestamp, width) {
      if i < |r| - 1 { assert r[i] == r[..|r| - 1][i]; }
    }
  }

  lemma {:induction false} AggregateGridded(width: nat, bars: seq<Bar>)
    requires width > 0
    ensures Gridded(Aggregate(width, bars), width)
    decreases |bars|
  {
    if bars != [] {
      var front, b := bars[..|bars| - 1], bars[|bars| - 1];
      AggregateGridded(width, front);
      if b.timestamp > 0 { IntoGridded(Aggregate(width, front), width, Bucket(b.timestamp, width), b); }
    }
  }

  // ----- what aggregation preserves -----

  function Volume(bars: seq<Bar>): int
    decreases |bars|
  {
    if bars == [] then 0 else Volume(bars[..|bars| - 1]) + NonNegative(bars[|bars| - 1].volume)
  }

  function Turnover(bars: seq<Bar>): real
    decreases |bars|
  {
    if bars == [] then 0.0 else Turnover(bars[..|bars| - 1]) + NonNegativeReal(bars[|bars| - 1].turnover)
  }

  lemma {:induction false} SumSnoc(bars: seq<Bar>, b: Bar)
    ensures Volume(bars + [b]) == Volume(bars) + NonNegative(b.volume)
    ensures Turnover(bars + [b]) == Turnover(bars) + NonNegativeReal(b.turnover)
  {
    assert (bars + [b])[..|bars|] == bars;
  }

  lemma {:induction false} SumInto(bars: seq<Bar>, k: int, b: Bar)
    requires Clean(bars)
    ensures Volume(Into(bars, k, b)) == Volume(bars) + NonNegative(b.volume)
    ensures Turnover(Into(bars, k, b)) == Turnover(bars) + NonNegativeReal(b.turnover)
  {
    if Continues(bars, k) {
      var front, last := bars[..|bars| - 1], bars[|bars| - 1];
      assert bars == front + [last];
      SumSnoc(front, last);
      SumSnoc(front, Extended(last, b));
    } else {
      SumSnoc(bars, Opened(k, b));
    }
  }

  /** Nothing traded is lost or counted twice. */
  lemma {:induction false} AggregateKeepsTotals(width: nat, bars: seq<Bar>)
    requires width > 0
    ensures Volume(Aggregate(width, bars)) == Volume(LastingOnly(1, bars))
    ensures Turnover(Aggregate(width, bars)) == Turnover(LastingOnly(1, bars))
    decreases |bars|
  {
    if bars != [] {
      var front, b := bars[..|bars| - 1], bars[|bars| - 1];
      AggregateKeepsTotals(width, front);
      AggregateIsClean(width, front);
      if b.timestamp > 0 {
        SumInto(Aggregate(width, front), Bucket(b.timestamp, width), b);
        SumSnoc(LastingOnly(1, front), b);
      }
    }
  }

  predicate Sorted(bars: seq<Bar>)
  {
    forall i, j :: 0 <= i < j < |bars| ==> bars[i].timestamp <= bars[j].timestamp
  }

  predicate Rising(bars: seq<Bar>)
  {
    forall i, j :: 0 <= i < j < |bars| ==> bars[i].timestamp < bars[j].timestamp
  }

  lemma BucketMonotone(s: int, t: int, width: nat)
    requires 0 < s <= t && width > 0
    ensures Bucket(s, width) <= Bucket(t, width)
  {
    var k, m := s / width, t / width;
    assert s == width * k + s % width && t == width * m + t % width;
    if k > m { MulNegative(width, m - k); MulDistribute(width, m, k); }
    MulMonotone(width, k, m);
  }

  lemma MulMonotone(p: nat, k: int, m: int)
    ensures k <= m ==> p * k <= p * m
  {}

  lemma IntoKeepsRising(bars: seq<Bar>, k: int, b: Bar)
    requires Rising(bars) && (bars != [] ==> bars[|bars| - 1].timestamp <= k)
    ensures Rising(Into(bars, k, b)) && Continues(Into(bars, k, b), k)
  {
    var r := Into(bars, k, b);
    forall i, j | 0 <= i < j < |r| ensures r[i].timestamp < r[j].timestamp {
      assert r[i] == r[..|r| - 1][i];
      if j < |r| - 1 { assert r[j] == r[..|r| - 1][j]; }
    }
  }

  /** Bars in time order give buckets in strictly rising order, the last one holding the last bar. */
  lemma {:induction false} SortedGivesRising(width: nat, bars: seq<Bar>)
    requires width > 0 && Sorted(bars)
    ensures var r := Aggregate(width, bars);
      Rising(r) && (r != [] ==> bars[|bars| - 1].timestamp > 0 && Continues(r, Bucket(bars[|bars| - 1].timestamp, width)))
    decreases |bars|
  {
    if bars != [] {
      var front, b := bars[..|bars| - 1], bars[|bars| - 1];
      SortedGivesRising(width, front);
      var r := Aggregate(width, front);
      if b.timestamp > 0 {
        var k := Bucket(b.timestamp, width);
        if r != [] { BucketMonotone(front[|front| - 1].timestamp, b.timestamp, width); }
        IntoKeepsRising(r, k, b);
      } else if front != [] {
        assert front[|front| - 1] == bars[|front| - 1];
      }
    }
  }

  // ----- what a bar means -----

  /** Bars of one bucket, back to back. */
  predicate Run(width: nat, k: int, run: seq<Bar>)
    requires width > 0
  {
    run != [] && forall i :: 0 <= i < |run| ==> run[i].timestamp > 0 && Bucket(run[i].timestamp, width) == k
  }

  /** A bar that sums up a run: first open, last close, highest high, lowest low, total amounts. */
  ghost predicate SumsUp(bar: Bar, k: int, run: seq<Bar>)
    requires run != []
  {
    && bar.timestamp == k && bar.open == run[0].open && bar.close == run[|run| - 1].close
    && (forall i :: 0 <= i < |run| ==> run[i].high <= bar.high && bar.low <= run[i].low)
    && (exists i :: 0 <= i < |run| && run[i].high == bar.high)
    && (exists i :: 0 <= i < |run| && run[i].low == bar.low)
    && bar.volume == Volume(run) && bar.turnover == Turnover(run)
  }

  lemma {:induction false} SumsUpMore(bar: Bar, k: int, run: seq<Bar>, b: Bar)
    requires run != [] && SumsUp(bar, k, run)
    ensures SumsUp(Extended(bar, b), k, run + [b])
  {
    var more, next := run + [b], Extended(bar, b);
    SumSnoc(run, b);
    var h :| 0 <= h < |run| && run[h].high == bar.high;
    var l :| 0 <= l < |run| && run[l].low == bar.low;
    assert more[h].high == bar.high && more[l].low == bar.low && more[|run|] == b;
    assert more[if bar.high < b.high then |run| else h].high == next.high;
    assert more[if b.low < bar.low then |run| else l].low == next.low;
  }

  /** Every maximal run of bars in one bucket becomes the one bar that sums it up. */
  lemma {:induction false} RunGrows(width: nat, so: seq<Bar>, k: int, b: Bar, before: seq<Bar>, last: Bar)
    requires width > 0 && b.timestamp > 0 && Bucket(b.timestamp, width) == k
    requires Aggregate(width, so) == before + [last] && last.timestamp == k
    ensures Aggregate(width, so + [b]) == before + [Extended(last, b)]
  {
    AggregateSnoc(width, so, b);
    assert (before + [last])[..|before|] == before;
  }

  /** Every maximal run of bars in one bucket becomes the one bar that sums it up. */
  lemma {:induction false} RunBecomesBar(width: nat, before: seq<Bar>, k: int, run: seq<Bar>) returns (bar: Bar)
    requires width > 0 && Run(width, k, run) && !Continues(Aggregate(width, before), k)
    ensures SumsUp(bar, k, run)
    ensures Aggregate(width, before + run) == Aggregate(width, before) + [bar]
    decreases |run|
  {
    var front, b := run[..|run| - 1], run[|run| - 1];
    assert before + run == (before + front) + [b] && front + [b] == run;
    if front == [] {
      assert before + front == before && run == [b];
      AggregateSnoc(width, before, b);
      bar := Opened(k, b);
      SumSnoc([], b);
    } else {
      var last := RunBecomesBar(width, before, k, front);
      bar := Extended(last, b);
      SumsUpMore(last, k, front, b);
      RunGrows(width, before + front, k, b, Aggregate(width, before), last);
    }
  }

  // ----- bars from ticks -----

  datatype Period = M1 | M5 | M15 | D1

  function Width(p: Period): (w: nat)
    ensures w == 60 * 1000 * (if p == D1 then 24 * 60 else if p == M15 then 15 else if p == M5 then 5 else 1)
  {
    match p case M1 => 60000 case M5 => 300000 case M15 => 900000 case D1 => 86400000
  }

  /** What a tick trades: a price and the amounts traded since the tick before. */
  datatype Trade = Trade(timestamp: int, dayBucket: int, price: real, volume: int, turnover: real)

  predicate Real(t: Trade)
  {
    t.timestamp > 0 && t.price > 0.0
  }

  predicate AllReal(trades: seq<Trade>)
  {
    forall i :: 0 <= i < |trades| ==> Real(trades[i])
  }

  /** The bucket a trade falls in; the daily one is that of the trading day. */
  function Key(p: Period, t: Trade): int
    requires Real(t)
  {
    if p == D1 then t.dayBucket else Bucket(t.timestamp, Width(p))
  }

  /** A trade as a bar of its own. */
  function Single(t: Trade): Bar
  {
    Bar(t.timestamp, t.price, t.price, t.price, t.price, t.volume, t.turnover)
  }

  /** One trade more; a trade without a bucket is left out. */
  function Grown(p: Period, bars: seq<Bar>, t: Trade): seq<Bar>
    requires Real(t)
  {
    if Key(p, t) <= 0 then bars else Into(bars, Key(p, t), Single(t))
  }

  /** All the bars of a period, were none ever evicted. */
  function Full(p: Period, trades: seq<Trade>): seq<Bar>
    requires AllReal(trades)
    decreases |trades|
  {
    if trades == [] then []
    else
      Grown(p, Full(p, trades[..|trades| - 1]), trades[|trades| - 1])
  }

  lemma {:induction false} FullSnoc(p: Period, trades: seq<Trade>, t: Trade)
    requires AllReal(trades) && Real(t)
    ensures Full(p, trades + [t]) == Grown(p, Full(p, trades), t)
  {
    assert (trades + [t])[..|trades|] == trades;
  }

  const KEPT := 2000

  function Recent(bars: seq<Bar>): seq<Bar>
  {
    if |bars| > KEPT then bars[|bars| - KEPT..] else bars
  }

  /** The bars kept are the last ones, all of them up to 2000. */
  lemma RecentAreLast(bars: seq<Bar>, n: nat)
    requires n == if |bars| < 2000 then |bars| else 2000
    ensures |Recent(bars)| == n && forall j :: 0 <= j < n ==> Recent(bars)[j] == bars[|bars| - n + j]
  {}

  lemma IntoSuffix(full: seq<Bar>, d: nat, k: int, b: Bar)
    requires d < |full|
    ensures Into(full[d..], k, b) == Into(full, k, b)[d..]
  {
    if Continues(full, k) { FrontOfSuffix(full, d); }
  }

  lemma RecentOfSuffix(long: seq<Bar>, d: nat)
    requires d + KEPT <= |long|
    ensures Recent(long[d..]) == Recent(long)
  {}

  /** Evicting the oldest bars does not disturb the newest. */
  lemma RecentInto(full: seq<Bar>, k: int, b: Bar)
    ensures Continues(Recent(full), k) == Continues(full, k)
    ensures full != [] ==> Recent(full) != [] && Recent(full)[|Recent(full)| - 1] == full[|full| - 1]
    ensures Recent(Into(Recent(full), k, b)) == Recent(Into(full, k, b))
  {
    if |full| > KEPT {
      IntoSuffix(full, |full| - KEPT, k, b);
      RecentOfSuffix(Into(full, k, b), |full| - KEPT);
    }
  }

  /** A bar the builder hands out when the next one opens. */
  function Finished(p: Period, before: seq<Bar>, t: Trade): seq<Bar>
    requires Real(t)
  {
    if Key(p, t) <= 0 || before == [] || Continues(before, Key(p, t)) then [] else [before[|before| - 1]]
  }

  function AllFinished(p: Period, trades: seq<Trade>): seq<Bar>
    requires AllReal(trades)
    decreases |trades|
  {
    if trades == [] then []
    else
      var front := trades[..|trades| - 1];
      AllFinished(p, front) + Finished(p, Full(p, front), trades[|trades| - 1])
  }

  function ButLast(bars: seq<Bar>): seq<Bar>
  {
    if bars == [] then [] else bars[..|bars| - 1]
  }

  lemma FinishedStep(p: Period, before: seq<Bar>, t: Trade)
    requires Real(t) && Key(p, t) > 0
    ensures ButLast(Into(before, Key(p, t), Single(t))) == ButLast(before) + Finished(p, before, t)
  {
    if before != [] { assert before == before[..|before| - 1] + [before[|before| - 1]]; }
  }

  /** Every bar but the one still open has been handed out, once, complete and in order. */
  lemma {:induction false} FinishedIsAllButLast(p: Period, trades: seq<Trade>)
    requires AllReal(trades)
    ensures AllFinished(p, trades) == ButLast(Full(p, trades))
    decreases |trades|
  {
    if trades != [] {
      var front, t := trades[..|trades| - 1], trades[|trades| - 1];
      FinishedIsAllButLast(p, front);
      if Key(p, t) > 0 { FinishedStep(p, Full(p, front), t); }
    }
  }

  function Singles(trades: seq<Trade>): (bars: seq<Bar>)
    ensures |bars| == |trades| && forall i :: 0 <= i < |trades| ==> bars[i] == Single(trades[i])
  {
    seq(|trades|, i requires 0 <= i < |trades| => Single(trades[i]))
  }

  /** The tick builder is an aggregation of the trades, but that it skips the very first bucket
      where aggregation labels it zero. */
  lemma {:induction false} FullIsAggregate(p: Period, trades: seq<Trade>)
    requires p != D1 && AllReal(trades)
    ensures Full(p, trades) == Aggregate(Width(p), LastingOnly(Width(p), Singles(trades)))
    decreases |trades|
  {
    if trades != [] {
      var front, t := trades[..|trades| - 1], trades[|trades| - 1];
      FullIsAggregate(p, front);
      assert Singles(trades) == Singles(front) + [Single(t)];
      LastingSnoc(Width(p), Singles(front), Single(t));
      GrownIsAbsorbed(p, Width(p), Full(p, front), t);
      AggregateSnoc(Width(p), LastingOnly(Width(p), Singles(front)), Single(t));
    }
  }

  lemma GrownIsAbsorbed(p: Period, w: nat, bars: seq<Bar>, t: Trade)
    requires p != D1 && w == Width(p) && Real(t)
    ensures Grown(p, bars, t) == if Lasting(w, Single(t)) then Absorb(bars, w, Single(t)) else bars
  {
    LastingBucket(t.timestamp, w);
  }

  lemma {:induction false} FullGridded(p: Period, trades: seq<Trade>)
    requires p != D1 && AllReal(trades)
    ensures Gridded(Full(p, trades), Width(p))
  {
    FullIsAggregate(p, trades);
    AggregateGridded(Width(p), LastingOnly(Width(p), Singles(trades)));
  }

  /** The trades as bars stamped with their trading days. */
  function Daily(trades: seq<Trade>): (bars: seq<Bar>)
    ensures |bars| == |trades| && forall i :: 0 <= i < |trades| ==> bars[i] == Single(trades[i]).(timestamp := trades[i].dayBucket)
  {
    seq(|trades|, i requires 0 <= i < |trades| => Single(trades[i]).(timestamp := trades[i].dayBucket))
  }

  /** The daily bars are the trades aggregated by trading day alone, whatever their own timestamps are;
      trades without a trading day are left out. */
  lemma {:induction false} DailyIsAggregate(trades: seq<Trade>)
    requires AllReal(trades)
    ensures Full(D1, trades) == Aggregate(1, Daily(trades))
    decreases |trades|
  {
    if trades != [] {
      var front, t := trades[..|trades| - 1], trades[|trades| - 1];
      DailyIsAggregate(front);
      var b := Single(t).(timestamp := t.dayBucket);
      assert Daily(trades) == Daily(front) + [b];
      AggregateSnoc(1, Daily(front), b);
      DailyStep(Full(D1, front), 1, t, b);
    }
  }

  lemma DailyStep(bars: seq<Bar>, w: nat, t: Trade, b: Bar)
    requires Real(t) && w == 1 && b == Single(t).(timestamp := t.dayBucket)
    ensures Grown(D1, bars, t) == Absorb(bars, w, b)
  {
    if t.dayBucket > 0 { assert Bucket(t.dayBucket, w) == t.dayBucket; }
  }

  /** The trades of one trading day, back to back, become the one bar that sums them up. */
  lemma {:induction false} DayBecomesBar(before: seq<Trade>, day: int, run: seq<Trade>) returns (bar: Bar)
    requires AllReal(before + run) && AllReal(before) && run != [] && !Continues(Full(D1, before), day)
    requires day > 0 && forall i :: 0 <= i < |run| ==> run[i].dayBucket == day
    ensures SumsUp(bar, day, Daily(run))
    ensures Full(D1, before + run) == Full(D1, before) + [bar]
  {
    DailyIsAggregate(before);
    DailyIsAggregate(before + run);
    DailyConcat(before, run);
    DailyRun(day, run);
    bar := RunBecomesBar(1, Daily(before), day, Daily(run));
  }

  lemma DailyConcat(a: seq<Trade>, b: seq<Trade>)
    ensures Daily(a + b) == Daily(a) + Daily(b)
  {}

  lemma DailyRun(day: int, run: seq<Trade>)
    requires run != [] && day > 0 && forall i :: 0 <= i < |run| ==> run[i].dayBucket == day
    ensures Run(1, day, Daily(run))
  {
    assert Bucket(day, 1) == day;
  }

  /** The first bucket of a width: aggregation keeps it under the stamp zero. */
  predicate Early(width: nat, b: Bar)
  {
    0 < b.timestamp < width
  }

  ghost predicate HasZero(bars: seq<Bar>)
  {
    exists i :: 0 <= i < |bars| && bars[i].timestamp == 0
  }

  ghost predicate HasEarly(width: nat, bars: seq<Bar>)
  {
    exists j :: 0 <= j < |bars| && Early(width, bars[j])
  }

  lemma EarlySnoc(width: nat, front: seq<Bar>, b: Bar)
    ensures HasEarly(width, front + [b]) <==> HasEarly(width, front) || Early(width, b)
  {
    var bars := front + [b];
    assert bars[|front|] == b && forall j :: 0 <= j < |front| ==> bars[j] == front[j];
  }

  lemma {:induction false} ZeroStamp(width: nat, bars: seq<Bar>)
    requires width > 0
    ensures HasZero(Aggregate(width, bars)) <==> HasEarly(width, bars)
    decreases |bars|
  {
    if bars != [] {
      var front, b := bars[..|bars| - 1], bars[|bars| - 1];
      ZeroStamp(width, front);
      assert bars == front + [b];
      EarlySnoc(width, front, b);
      if b.timestamp > 0 {
        LastingBucket(b.timestamp, width);
        StampsOfInto(Aggregate(width, front), Bucket(b.timestamp, width), b);
      }
    }
  }

  lemma StampsOfInto(bars: seq<Bar>, k: int, b: Bar)
    ensures HasZero(Into(bars, k, b)) <==> k == 0 || HasZero(bars)
  {
    var r := Into(bars, k, b);
    assert r[|r| - 1].timestamp == k;
    forall i | 0 <= i < |bars| ensures r[i].timestamp == bars[i].timestamp {
      if i < |r| - 1 { assert r[i] == r[..|r| - 1][i]; }
    }
  }

  lemma {:induction false} LastingAll(w: nat, bars: seq<Bar>)
    ensures forall i :: 0 <= i < |LastingOnly(w, bars)| ==> Lasting(w, LastingOnly(w, bars)[i]) && LastingOnly(w, bars)[i] in bars
    ensures forall b :: b in bars && Lasting(w, b) ==> b in LastingOnly(w, bars)
    decreases |bars|
  {
    if bars != [] {
      LastingAll(w, bars[..|bars| - 1]);
      assert bars == bars[..|bars| - 1] + [bars[|bars| - 1]];
    }
  }

  lemma {:induction false} LastingTwice(v: nat, w: nat, bars: seq<Bar>)
    requires v <= w
    ensures LastingOnly(w, LastingOnly(v, bars)) == LastingOnly(w, bars)
    decreases |bars|
  {
    if bars != [] {
      var front, b := bars[..|bars| - 1], bars[|bars| - 1];
      LastingTwice(v, w, front);
      if Lasting(v, b) { LastingSnoc(w, LastingOnly(v, front), b); }
    }
  }

  /** A trade too early for a coarse period but not for the one-minute bars. */
  predicate Between(p: Period, t: Trade)
  {
    Width(M1) <= t.timestamp < Width(p)
  }

  /** A bar the fine aggregation keeps and the coarse one stamps zero. */
  predicate Straddles(m: nat, w: nat, b: Bar)
  {
    m <= b.timestamp < w
  }

  lemma {:induction false} NoStraddle(m: nat, w: nat, bars: seq<Bar>)
    requires 0 < m <= w && forall b :: b in bars ==> !Straddles(m, w, b)
    ensures Aggregate(w, LastingOnly(m, bars)) == Aggregate(w, LastingOnly(w, bars))
  {
    var fine := LastingOnly(m, bars);
    LastingAll(m, bars);
    forall i | 0 <= i < |fine| ensures Lasting(w, fine[i]) { assert fine[i] in bars; }
    AllLasting(w, fine);
    LastingTwice(m, w, bars);
  }

  lemma {:induction false} StraddleShows(m: nat, w: nat, bars: seq<Bar>, b: Bar)
    requires 0 < m <= w && b in bars && Straddles(m, w, b)
    ensures Aggregate(w, LastingOnly(m, bars)) != Aggregate(w, LastingOnly(w, bars))
  {
    var fine := LastingOnly(m, bars);
    LastingAll(m, bars);
    LastingAll(w, bars);
    ZeroStamp(w, fine);
    ZeroStamp(w, LastingOnly(w, bars));
    var j :| 0 <= j < |fine| && fine[j] == b;
    assert Early(w, fine[j]);
  }

  /** The two builders agree: the 5- and 15-minute bars kept tick by tick are the aggregation of
      the 1-minute bars kept tick by tick, exactly when no trade falls into the first coarse
      bucket of the epoch but after its first minute. */
  lemma {:induction false} BuildersAgree(p: Period, n: nat, trades: seq<Trade>)
    requires ((p == M5 && n == 5) || (p == M15 && n == 15)) && AllReal(trades)
    ensures Aggregate(Width(p), Full(M1, trades)) == Full(p, trades)
      <==> forall i :: 0 <= i < |trades| ==> !Between(p, trades[i])
  {
    var m, w, singles := Width(M1), Width(p), Singles(trades);
    FullIsAggregate(M1, trades);
    FullIsAggregate(p, trades);
    AggregateComposes(m, n, w, LastingOnly(m, singles));
    LastingTwice(m, m, singles);
    if forall i :: 0 <= i < |trades| ==> !Between(p, trades[i]) {
      NoStraddle(m, w, singles);
    } else {
      var i :| 0 <= i < |trades| && Between(p, trades[i]);
      StraddleShows(m, w, singles, singles[i]);
    }
  }

  // ----- the tick builder -----

  /** The fields of a tick the builder uses, its timestamps already converted to milliseconds. */
  datatype Tick = Tick(price: real, day: string, timestamp: int, dayBucket: int, volume: int, turnover: real)

  datatype Completed = Completed(period: Period, bar: Bar)

  predicate Usable(t: Tick)
  {
    t.price > 0.0 && t.timestamp > 0
  }

  /** The cumulative counters of the tick before, and its day; before the first tick there are none. */
  datatype Counters = Counters(volume: int, turnover: real, day: string)

  const NO_TICK := Counters(-1, -1.0, "")

  /** What a tick adds to the cumulative counters of the tick before; nothing on the first tick of
      a day, and nothing when a counter went backwards. */
  function TradeOf(last: Counters, t: Tick): (trade: Trade)
    requires Usable(t)
    ensures Real(trade) && trade.volume >= 0 && trade.turnover >= 0.0
  {
    var reset := last.day != "" && last.day != t.day;
    var volume := if reset then -1 else last.volume;
    var turnover := if reset then -1.0 else last.turnover;
    Trade(t.timestamp, t.dayBucket, t.price,
          if volume >= 0 && t.volume >= volume then t.volume - volume else 0,
          if turnover >= 0.0 && t.turnover >= turnover then t.turnover - turnover else 0.0)
  }

  predicate AllUsable(ticks: seq<Tick>)
  {
    forall i :: 0 <= i < |ticks| ==> Usable(ticks[i])
  }

  function CountersAfter(start: Counters, ticks: seq<Tick>): Counters
  {
    if ticks == [] then start else
      var t := ticks[|ticks| - 1];
      Counters(t.volume, t.turnover, t.day)
  }

  /** The trades that a stream of ticks comes to. */
  function Measured(start: Counters, ticks: seq<Tick>): (trades: seq<Trade>)
    requires AllUsable(ticks)
    ensures |trades| == |ticks| && AllReal(trades)
    decreases |ticks|
  {
    if ticks == [] then []
    else
      var front := ticks[..|ticks| - 1];
      Measured(start, front) + [TradeOf(CountersAfter(start, front), ticks[|ticks| - 1])]
  }

  lemma MeasuredMore(
      start: Counters, ticks: seq<Tick>, tick: Tick, next: seq<Tick>, trades: seq<Trade>, more: seq<Trade>, t: Trade)
    requires AllUsable(ticks) && Usable(tick) && next == ticks + [tick]
    requires trades == Measured(start, ticks) && t == TradeOf(CountersAfter(start, ticks), tick) && more == trades + [t]
    ensures AllUsable(next) && more == Measured(start, next)
    ensures CountersAfter(start, next) == Counters(tick.volume, tick.turnover, tick.day)
  {
    assert next[..|ticks|] == ticks;
  }

  /** The ticks of one day, with counters that never fall. */
  predicate OneDay(ticks: seq<Tick>)
  {
    forall i :: 0 <= i < |ticks| ==>
      && ticks[i].day == ticks[0].day && ticks[i].volume >= 0 && ticks[i].turnover >= 0.0
      && (i > 0 ==> ticks[i - 1].volume <= ticks[i].volume && ticks[i - 1].turnover <= ticks[i].turnover)
  }

  /** No tick of this day came before. */
  predicate NewDay(start: Counters, day: string)
  {
    (start.volume < 0 && start.turnover < 0.0) || (start.day != "" && start.day != day)
  }

  /** The first tick of a day adds nothing; a later one what the counters rose by, and nothing when
      there is no counter to measure against or it fell. */
  lemma DayTrade(last: Counters, t: Tick)
    requires Usable(t)
    ensures TradeOf(last, t).timestamp == t.timestamp && TradeOf(last, t).dayBucket == t.dayBucket && TradeOf(last, t).price == t.price
    ensures NewDay(last, t.day) ==> TradeOf(last, t).volume == 0 && TradeOf(last, t).turnover == 0.0
    ensures last.day in ["", t.day] ==>
      TradeOf(last, t).volume == if 0 <= last.volume <= t.volume then t.volume - last.volume else 0
    ensures last.day in ["", t.day] ==>
      TradeOf(last, t).turnover == if 0.0 <= last.turnover <= t.turnover then t.turnover - last.turnover else 0.0
  {}

  lemma SinglesSnoc(trades: seq<Trade>, t: Trade)
    ensures Volume(Singles(trades + [t])) == Volume(Singles(trades)) + NonNegative(t.volume)
    ensures Turnover(Singles(trades + [t])) == Turnover(Singles(trades)) + NonNegativeReal(t.turnover)
  {
    assert Singles(trades + [t]) == Singles(trades) + [Single(t)];
    SumSnoc(Singles(trades), Single(t));
  }

  /** Over a day the measured trades add up to the last counter less the first: nothing traded between
      ticks is lost or counted twice, and what came before the first tick of the day is not counted. */
  lemma {:induction false} DayAddsUp(start: Counters, ticks: seq<Tick>, last: Tick)
    requires AllUsable(ticks) && OneDay(ticks) && ticks != [] && NewDay(start, ticks[0].day) && last == ticks[|ticks| - 1]
    ensures Volume(Singles(Measured(start, ticks))) == last.volume - ticks[0].volume
    ensures Turnover(Singles(Measured(start, ticks))) == last.turnover - ticks[0].turnover
    decreases |ticks|
  {
    var front := ticks[..|ticks| - 1];
    DayTrade(CountersAfter(start, front), last);
    SinglesSnoc(Measured(start, front), TradeOf(CountersAfter(start, front), last));
    if front != [] { DayAddsUp(start, front, ticks[|ticks| - 2]); }
  }

  lemma {:induction false} FullIsClean(p: Period, trades: seq<Trade>)
    requires AllReal(trades)
    ensures Clean(Full(p, trades))
    decreases |trades|
  {
    if trades != [] {
      var front, t := trades[..|trades| - 1], trades[|trades| - 1];
      FullIsClean(p, front);
      if Key(p, t) > 0 { IntoIsClean(Full(p, front), Key(p, t), Single(t)); }
    }
  }

  lemma GrownTotals(p: Period, bars: seq<Bar>, t: Trade)
    requires Clean(bars) && Real(t) && Key(p, t) > 0
    ensures Volume(Grown(p, bars, t)) == Volume(bars) + NonNegative(t.volume)
    ensures Turnover(Grown(p, bars, t)) == Turnover(bars) + NonNegativeReal(t.turnover)
  {
    SumInto(bars, Key(p, t), Single(t));
  }

  /** The bars of a period hold all that its trades add up to. */
  lemma {:induction false} FullKeepsTotals(p: Period, trades: seq<Trade>)
    requires AllReal(trades) && forall i :: 0 <= i < |trades| ==> Key(p, trades[i]) > 0
    ensures Volume(Full(p, trades)) == Volume(Singles(trades)) && Turnover(Full(p, trades)) == Turnover(Singles(trades))
    decreases |trades|
  {
    if trades == [] {
      assert Singles(trades) == [];
    } else {
      var front, t := trades[..|trades| - 1], trades[|trades| - 1];
      assert trades == front + [t];
      FullKeepsTotals(p, front);
      FullIsClean(p, front);
      GrownTotals(p, Full(p, front), t);
      FullSnoc(p, front, t);
      SinglesSnoc(front, t);
    }
  }

  /** So the bars of a day hold, in every period, what the exchange's counters rose by since the first
      tick of the day. */
  lemma {:induction false} DayInBars(p: Period, start: Counters, ticks: seq<Tick>)
    requires AllUsable(ticks) && OneDay(ticks) && ticks != [] && NewDay(start, ticks[0].day)
    requires forall i :: 0 <= i < |ticks| ==> Key(p, Measured(start, ticks)[i]) > 0
    ensures var full, last := Full(p, Measured(start, ticks)), ticks[|ticks| - 1];
      Volume(full) == last.volume - ticks[0].volume && Turnover(full) == last.turnover - ticks[0].turnover
  {
    DayAddsUp(start, ticks, ticks[|ticks| - 1]);
    FullKeepsTotals(p, Measured(start, ticks));
  }

  const PERIODS: seq<Period> := [M1, M5, M15, D1]

  function Place(p: Period): (i: nat)
    ensures i < 4 && PERIODS[i] == p
  {
    match p case M1 => 0 case M5 => 1 case M15 => 2 case D1 => 3
  }

  function Tagged(p: Period, bars: seq<Bar>): seq<Completed>
  {
    if bars == [] then [] else [Completed(p, bars[|bars| - 1])]
  }

  /** The bars of every period, in the order of PERIODS. */
  function Fulls(trades: seq<Trade>): (full: seq<seq<Bar>>)
    requires AllReal(trades)
    ensures |full| == 4
  {
    [Full(M1, trades), Full(M5, trades), Full(M15, trades), Full(D1, trades)]
  }

  lemma FullsAt(trades: seq<Trade>, i: nat)
    requires AllReal(trades) && i < 4
    ensures Fulls(trades)[i] == Full(PERIODS[i], trades)
  {}

  lemma {:induction false} FullsGrow(trades: seq<Trade>, t: Trade)
    requires AllReal(trades) && Real(t)
    ensures forall i :: 0 <= i < 4 ==> Fulls(trades + [t])[i] == Grown(PERIODS[i], Fulls(trades)[i], t)
  {
    forall i | 0 <= i < 4 ensures Fulls(trades + [t])[i] == Grown(PERIODS[i], Fulls(trades)[i], t) {
      FullsAt(trades, i);
      FullsAt(trades + [t], i);
      FullSnoc(PERIODS[i], trades, t);
    }
  }

  /** The bars a trade completes, over the first n periods. */
  function CompletedBy(n: nat, full: seq<seq<Bar>>, t: Trade): seq<Completed>
    requires n <= 4 == |full| && Real(t)
  {
    if n == 0 then []
    else CompletedBy(n - 1, full, t) + Tagged(PERIODS[n - 1], Finished(PERIODS[n - 1], full[n - 1], t))
  }

  /** Bars of the first n periods, at most one of each, in the order of PERIODS. */
  ghost predicate InOrder(done: seq<Completed>, n: nat)
  {
    && (forall i :: 0 <= i < |done| ==> Place(done[i].period) < n)
    && forall i, j :: 0 <= i < j < |done| ==> Place(done[i].period) < Place(done[j].period)
  }

  lemma TaggedInOrder(done: seq<Completed>, q: Period, bars: seq<Bar>, m: nat, n: nat)
    requires InOrder(done, m) && Place(q) == m && n == m + 1
    ensures InOrder(done + Tagged(q, bars), n)
  {}

  lemma {:induction false} CompletedInOrder(n: nat, full: seq<seq<Bar>>, t: Trade)
    requires n <= 4 == |full| && Real(t)
    ensures InOrder(CompletedBy(n, full, t), n)
    decreases n
  {
    if n > 0 {
      var m := n - 1;
      CompletedInOrder(m, full, t);
      PlaceOf(PERIODS[m], m);
      TaggedInOrder(CompletedBy(m, full, t), PERIODS[m], Finished(PERIODS[m], full[m], t), m, n);
    }
  }

  /** The completed bars of one period. */
  function OfPeriod(p: Period, done: seq<Completed>): seq<Bar>
    decreases |done|
  {
    if done == [] then []
    else OfPeriod(p, done[..|done| - 1]) + if done[|done| - 1].period == p then [done[|done| - 1].bar] else []
  }

  lemma {:induction false} OfPeriodTagged(p: Period, done: seq<Completed>, q: Period, bars: seq<Bar>)
    requires |bars| <= 1
    ensures OfPeriod(p, done + Tagged(q, bars)) == OfPeriod(p, done) + if p == q then bars else []
  {
    if bars == [] {
      assert done + Tagged(q, bars) == done && OfPeriod(p, done) + [] == OfPeriod(p, done);
    } else {
      assert (done + Tagged(q, bars))[..|done|] == done && bars == [bars[0]];
    }
  }

  /** Of the first n periods' completed bars those of one period, behind others. */
  lemma {:induction false} OfPeriodCompleted(p: Period, done: seq<Completed>, n: nat, full: seq<seq<Bar>>, t: Trade)
    requires n <= 4 == |full| && Real(t)
    ensures OfPeriod(p, done + CompletedBy(n, full, t))
      == OfPeriod(p, done) + if Place(p) < n then Finished(p, full[Place(p)], t) else []
    decreases n
  {
    if n == 0 {
      assert done + CompletedBy(n, full, t) == done;
    } else {
      OfPeriodCompleted(p, done, n - 1, full, t);
      OfPeriodNext(p, done, n - 1, n, full, t);
    }
  }

  lemma {:induction false} OfPeriodNext(p: Period, done: seq<Completed>, m: nat, n: nat, full: seq<seq<Bar>>, t: Trade)
    requires n == m + 1 && n <= 4 == |full| && Real(t)
    ensures OfPeriod(p, done + CompletedBy(n, full, t))
      == OfPeriod(p, done + CompletedBy(m, full, t)) + if Place(p) == m then Finished(p, full[m], t) else []
  {
    PlaceOf(p, m);
    var q := PERIODS[m];
    var last := Finished(q, full[m], t);
    OfPeriodBehind(p, done, CompletedBy(m, full, t), q, last);
    assert CompletedBy(n, full, t) == CompletedBy(m, full, t) + Tagged(q, last);
  }

  lemma {:induction false} OfPeriodBehind(p: Period, done: seq<Completed>, front: seq<Completed>, q: Period, last: seq<Bar>)
    requires |last| <= 1
    ensures OfPeriod(p, done + (front + Tagged(q, last))) == OfPeriod(p, done + front) + if p == q then last else []
  {
    Regroup(done, front, Tagged(q, last));
    OfPeriodTagged(p, done + front, q, last);
  }

  lemma PlaceOf(p: Period, i: nat)
    requires i < 4
    ensures PERIODS[i] == p <==> Place(p) == i
  {}

  /** All that a stream of trades completes, trade by trade. */
  function AllCompleted(trades: seq<Trade>): seq<Completed>
    requires AllReal(trades)
    decreases |trades|
  {
    if trades == [] then []
    else
      var front := trades[..|trades| - 1];
      AllCompleted(front) + CompletedBy(4, Fulls(front), trades[|trades| - 1])
  }

  /** Whoever takes what is handed out gets, in every period, all bars but the one still open, in order. */
  lemma {:induction false} CompletedIsAllButLast(p: Period, trades: seq<Trade>)
    requires AllReal(trades)
    ensures OfPeriod(p, AllCompleted(trades)) == ButLast(Full(p, trades))
    decreases |trades|
  {
    AllCompletedOfPeriod(p, trades);
    FinishedIsAllButLast(p, trades);
  }

  lemma {:induction false} AllCompletedOfPeriod(p: Period, trades: seq<Trade>)
    requires AllReal(trades)
    ensures OfPeriod(p, AllCompleted(trades)) == AllFinished(p, trades)
    decreases |trades|
  {
    if trades != [] {
      var front, t := trades[..|trades| - 1], trades[|trades| - 1];
      AllCompletedOfPeriod(p, front);
      OfPeriodCompleted(p, AllCompleted(front), 4, Fulls(front), t);
      assert Fulls(front)[Place(p)] == Full(p, front);
    }
  }

  method Evict(bars: seq<Bar>) returns (r: seq<Bar>)
    ensures r == Recent(bars)
  {
    r := bars;
    while |r| > KEPT
      invariant Recent(r) == Recent(bars)
    {
      r := r[1..];
    }
  }

  method AppendOrUpdate(bars: seq<Bar>, timestamp: int, price: real, volumeDelta: int, turnoverDelta: real)
    returns (r: seq<Bar>)
    ensures r == if price <= 0.0 then bars
      else Recent(Into(bars, timestamp, Bar(timestamp, price, price, price, price, volumeDelta, turnoverDelta)))
  {
    r := bars;
    if price <= 0.0 { return; }
    if |r| == 0 || r[|r| - 1].timestamp != timestamp {
      r := r + [Bar(timestamp, price, price, price, price, NonNegative(volumeDelta), NonNegativeReal(turnoverDelta))];
    } else {
      var bar := r[|r| - 1];
      bar := bar.(high := Max(bar.high, price), low := Min(bar.low, price), close := price,
                  volume := bar.volume + NonNegative(volumeDelta),
                  turnover := bar.turnover + NonNegativeReal(turnoverDelta));
      r := r[..|r| - 1] + [bar];
    }
    r := Evict(r);
  }

  /** The timestamp of the single bar does not matter once its bucket is chosen. */
  lemma StampIgnored(bars: seq<Bar>, k: int, t: Trade)
    ensures Into(bars, k, Bar(k, t.price, t.price, t.price, t.price, t.volume, t.turnover)) == Into(bars, k, Single(t))
  {}

  lemma GrowStep(p: Period, full: seq<Bar>, t: Trade, k: int, bars: seq<Bar>)
    requires Real(t) && k == Key(p, t) > 0 && bars == Recent(full)
    ensures Recent(Into(bars, k, Bar(k, t.price, t.price, t.price, t.price, t.volume, t.turnover))) == Recent(Grown(p, full, t))
    ensures Tagged(p, Finished(p, full, t))
      == if bars != [] && bars[|bars| - 1].timestamp != k then [Completed(p, bars[|bars| - 1])] else []
  {
    RecentInto(full, k, Single(t));
    StampIgnored(bars, k, t);
  }

  /** One trade into the bars kept of one period: the bars then, and the one it completes if any. */
  method Grow(p: Period, bars: seq<Bar>, t: Trade, ghost full: seq<Bar>) returns (r: seq<Bar>, done: seq<Completed>)
    requires Real(t) && bars == Recent(full)
    ensures r == Recent(Grown(p, full, t)) && done == Tagged(p, Finished(p, full, t))
  {
    var k := Key(p, t);
    if k <= 0 { return bars, []; }
    GrowStep(p, full, t, k, bars);
    done := if |bars| > 0 && bars[|bars| - 1].timestamp != k then [Completed(p, bars[|bars| - 1])] else [];
    r := AppendOrUpdate(bars, k, t.price, t.volume, t.turnover);
  }

  /** What a tick adds to the counters of the tick before. */
  method Measure(lastVolume: int, lastTurnover: real, lastDay: string, tick: Tick) returns (t: Trade)
    requires Usable(tick)
    ensures t == TradeOf(Counters(lastVolume, lastTurnover, lastDay), tick)
  {
    var volume, turnover := lastVolume, lastTurnover;
    if lastDay != "" && lastDay != tick.day { volume, turnover := -1, -1.0; }
    var volumeDelta, turnoverDelta := 0, 0.0;
    if volume >= 0 { volumeDelta := if tick.volume >= volume then tick.volume - volume else 0; }
    if turnover >= 0.0 { turnoverDelta := if tick.turnover >= turnover then tick.turnover - turnover else 0.0; }
    t := Trade(tick.timestamp, tick.dayBucket, tick.price, volumeDelta, turnoverDelta);
  }

  /** The bars a map holds for a period; a period without an entry holds none. */
  function HeldIn(m: map<Period, seq<Bar>>, p: Period): seq<Bar>
  {
    if p in m then m[p] else []
  }

  /** The first n periods hold the later bars, the others still the earlier ones. */
  ghost predicate Partly(m: map<Period, seq<Bar>>, n: nat, earlier: seq<seq<Bar>>, later: seq<seq<Bar>>)
    requires |earlier| == |later| == 4
  {
    forall i :: 0 <= i < 4 ==> HeldIn(m, PERIODS[i]) == Recent(if i < n then later[i] else earlier[i])
  }

  lemma PeriodsDiffer(i: nat, j: nat)
    requires i < 4 && j < 4 && i != j
    ensures PERIODS[i] != PERIODS[j]
  {
    assert Place(PERIODS[i]) == i && Place(PERIODS[j]) == j;
  }

  lemma {:induction false} NextPartly(
      m: map<Period, seq<Bar>>, i: nat, next: map<Period, seq<Bar>>, earlier: seq<seq<Bar>>, later: seq<seq<Bar>>)
    requires |earlier| == |later| == 4 && i < 4 && Partly(m, i, earlier, later)
    requires next == m[PERIODS[i] := Recent(later[i])]
    ensures Partly(next, i + 1, earlier, later)
  {
    forall j | 0 <= j < 4 ensures HeldIn(next, PERIODS[j]) == Recent(if j < i + 1 then later[j] else earlier[j]) {
      if j != i {
        PeriodsDiffer(i, j);
        assert HeldIn(next, PERIODS[j]) == HeldIn(m, PERIODS[j]);
      }
    }
  }

  /** The bars kept of every period, in the order of PERIODS. */
  function Kept(m: map<Period, seq<Bar>>): seq<seq<Bar>>
  {
    [HeldIn(m, M1), HeldIn(m, M5), HeldIn(m, M15), HeldIn(m, D1)]
  }

  /** The last 2000 of the bars the trades make, of every period. */
  function Recents(trades: seq<Trade>): seq<seq<Bar>>
    requires AllReal(trades)
  {
    [Recent(Full(M1, trades)), Recent(Full(M5, trades)), Recent(Full(M15, trades)), Recent(Full(D1, trades))]
  }

  lemma KeptIff(m: map<Period, seq<Bar>>, n: nat, earlier: seq<seq<Bar>>, trades: seq<Trade>)
    requires |earlier| == 4 && AllReal(trades) && (n == 4 || (n == 0 && earlier == Fulls(trades)))
    ensures Partly(m, n, earlier, Fulls(trades)) <==> Kept(m) == Recents(trades)
  {
    var full := Fulls(trades);
    assert forall i :: 0 <= i < 4 ==> Kept(m)[i] == HeldIn(m, PERIODS[i]) && Recents(trades)[i] == Recent(full[i]);
    if Kept(m) == Recents(trades) {
      forall i | 0 <= i < 4 ensures HeldIn(m, PERIODS[i]) == Recent(if i < n then full[i] else earlier[i]) {
        assert Kept(m)[i] == Recents(trades)[i];
      }
    }
  }

  lemma StartPartly(m: map<Period, seq<Bar>>, earlier: seq<seq<Bar>>, later: seq<seq<Bar>>)
    requires |earlier| == |later| == 4 && Partly(m, 0, earlier, earlier)
    ensures Partly(m, 0, earlier, later)
  {}

  class InstrumentState {
    var lastVolume: int
    var lastTurnover: real
    var lastTradingDay: string
    var barsByPeriod: map<Period, seq<Bar>>
    /** Every usable tick so far, and every trade. */
    ghost var ticks: seq<Tick>
    ghost var trades: seq<Trade>

    ghost predicate Valid()
      reads this
    {
      && AllUsable(ticks) && trades == Measured(NO_TICK, ticks)
      && Kept(barsByPeriod) == Recents(trades)
      && Counters(lastVolume, lastTurnover, lastTradingDay) == CountersAfter(NO_TICK, ticks)
    }

    constructor ()
      ensures Valid() && ticks == []
    {
      lastVolume, lastTurnover, lastTradingDay := -1, -1.0, "";
      barsByPeriod := map[];
      ticks, trades := [], [];
    }

    /** One trade into every period: the bars it completes. */
    method TakeAll(t: Trade, ghost earlier: seq<seq<Bar>>, ghost later: seq<seq<Bar>>) returns (completed: seq<Completed>)
      requires |earlier| == |later| == 4 && Real(t) && Partly(barsByPeriod, 0, earlier, later)
      requires forall i :: 0 <= i < 4 ==> later[i] == Grown(PERIODS[i], earlier[i], t)
      modifies this`barsByPeriod
      ensures Partly(barsByPeriod, 4, earlier, later) && completed == CompletedBy(4, earlier, t)
    {
      completed := [];
      var i := 0;
      while i < 4
        invariant 0 <= i <= 4 && Partly(barsByPeriod, i, earlier, later) && completed == CompletedBy(i, earlier, t)
      {
        var bars, done := Grow(PERIODS[i], HeldIn(barsByPeriod, PERIODS[i]), t, earlier[i]);
        NextPartly(barsByPeriod, i, barsByPeriod[PERIODS[i] := bars], earlier, later);
        barsByPeriod := barsByPeriod[PERIODS[i] := bars];
        completed := completed + done;
        i := i + 1;
      }
    }

    /** A trade into every period: what they keep then is still the last 2000 bars of all trades. */
    method Take(t: Trade) returns (completed: seq<Completed>)
      requires AllReal(trades) && Real(t) && Kept(barsByPeriod) == Recents(trades)
      modifies this`barsByPeriod, this`trades
      ensures trades == old(trades) + [t] && Kept(barsByPeriod) == Recents(trades)
      ensures completed == CompletedBy(4, Fulls(old(trades)), t)
    {
      ghost var earlier, later := Fulls(trades), Fulls(trades + [t]);
      FullsGrow(trades, t);
      KeptIff(barsByPeriod, 0, earlier, trades);
      StartPartly(barsByPeriod, earlier, later);
      completed := TakeAll(t, earlier, later);
      trades := trades + [t];
      KeptIff(barsByPeriod, 4, earlier, trades);
    }

    /** A usable tick: its trade goes into the bars, and it is the one the next is measured against. */
    method TakeTick(tick: Tick) returns (completed: seq<Completed>)
      requires Valid() && Usable(tick)
      modifies this
      ensures Valid() && ticks == old(ticks) + [tick]
      ensures completed == CompletedBy(4, Fulls(old(trades)), TradeOf(CountersAfter(NO_TICK, old(ticks)), tick))
    {
      var t := Measure(lastVolume, lastTurnover, lastTradingDay, tick);
      lastVolume, lastTurnover, lastTradingDay := tick.volume, tick.turnover, tick.day;
      ticks := ticks + [tick];
      completed := Take(t);
      MeasuredMore(NO_TICK, old(ticks), tick, ticks, old(trades), trades, t);
    }

    method Update(tick: Tick) returns (completed: seq<Completed>)
      requires Valid()
      modifies this
      ensures Valid()
      ensures tick.price <= 0.0 || tick.timestamp <= 0 ==> completed == [] && unchanged(this)
      ensures tick.price > 0.0 && tick.timestamp > 0 ==>
        && Usable(tick) && ticks == old(ticks) + [tick]
        && completed == CompletedBy(4, Fulls(old(trades)), TradeOf(CountersAfter(NO_TICK, old(ticks)), tick))
    {
      if tick.price <= 0.0 || tick.timestamp <= 0 { return []; }
      completed := TakeTick(tick);
    }
  }

  // ----- importing finer bars -----

  method AggregateBars(source: seq<Bar>, width: nat) returns (aggregated: seq<Bar>)
    requires width > 0
    ensures aggregated == Aggregate(width, source)
  {
    aggregated := [];
    var i := 0;
    ghost var done: seq<Bar> := [];
    while i < |source|
      invariant 0 <= i <= |source| && done == source[..i] && aggregated == Aggregate(width, done)
    {
      AggregateSnoc(width, done, source[i]);
      aggregated := AbsorbBar(aggregated, width, source[i]);
      done, i := done + [source[i]], i + 1;
    }
    assert done == source;
  }

  /** One turn of the loop: a bar extends the last one of its bucket or opens a new one. */
  method AbsorbBar(bars: seq<Bar>, width: nat, b: Bar) returns (r: seq<Bar>)
    requires width > 0
    ensures r == Absorb(bars, width, b)
  {
    r := bars;
    if b.timestamp <= 0 { return; }
    var bucket := b.timestamp - b.timestamp % width;
    if |r| == 0 || r[|r| - 1].timestamp != bucket {
      r := r + [Opened(bucket, b)];
    } else {
      r := r[..|r| - 1] + [Extended(r[|r| - 1], b)];
    }
  }

  predicate Less(a: int, b: int) { a < b }

  function PutAll(m: Map<int, Bar>, bars: seq<Bar>): Map<int, Bar>
    decreases |bars|
  {
    if bars == [] then m else PutAll(Put(Less, m, bars[0].timestamp, bars[0]), bars[1..])
  }

  function ValueOf(e: Entry<int, Bar>): Bar { e.value }

  /** The bars of both sides by timestamp, the imported ones winning, before any are evicted. */
  function MergedAll(existing: seq<Bar>, imported: seq<Bar>, replace: bool): seq<Bar>
  {
    Mapped(ValueOf, PutAll(PutAll([], if replace then [] else existing), imported))
  }

  /** What merge_period_bars returns. */
  function Merged(existing: seq<Bar>, imported: seq<Bar>, replace: bool): seq<Bar>
  {
    Recent(MergedAll(existing, imported, replace))
  }

  /** The last bar of a list with a given timestamp. */
  function LastAt(bars: seq<Bar>, t: int): Option<Bar>
    decreases |bars|
  {
    if bars == [] then None
    else match LastAt(bars[1..], t)
      case Some(b) => Some(b)
      case None => if bars[0].timestamp == t then Some(bars[0]) else None
  }

  /** Ordered by timestamp, each bar under its own. */
  ghost predicate Keyed(m: Map<int, Bar>)
  {
    Ascending(Less, m) && forall i :: 0 <= i < |m| ==> m[i].value.timestamp == m[i].key
  }

  lemma LessIsStrictOrder()
    ensures StrictOrder(Less)
  {}

  lemma PutKeepsKeyed(m: Map<int, Bar>, b: Bar)
    requires Keyed(m)
    ensures Keyed(Put(Less, m, b.timestamp, b))
  {
    LessIsStrictOrder();
    PutKeepsOrder(Less, m, b.timestamp, b);
    var r := Put(Less, m, b.timestamp, b);
    forall i | 0 <= i < |r| ensures r[i].value.timestamp == r[i].key { assert r[i] in r; }
  }

  lemma {:induction false} PutAllKeyed(m: Map<int, Bar>, bars: seq<Bar>)
    requires Keyed(m)
    ensures Keyed(PutAll(m, bars))
    decreases |bars|
  {
    if bars != [] {
      PutKeepsKeyed(m, bars[0]);
      PutAllKeyed(Put(Less, m, bars[0].timestamp, bars[0]), bars[1..]);
    }
  }

  lemma {:induction false} GetPutAll(m: Map<int, Bar>, bars: seq<Bar>, t: int)
    requires Keyed(m)
    ensures Get(PutAll(m, bars), t) == match LastAt(bars, t) case Some(b) => Some(b) case None => Get(m, t)
    decreases |bars|
  {
    if bars != [] {
      PutKeepsKeyed(m, bars[0]);
      LessIsStrictOrder();
      GetPut(Less, m, bars[0].timestamp, bars[0], t);
      GetPutAll(Put(Less, m, bars[0].timestamp, bars[0]), bars[1..], t);
    }
  }

  lemma {:induction false} GetIsIn(m: Map<int, Bar>, b: Bar)
    requires Keyed(m)
    ensures b in Mapped(ValueOf, m) <==> Get(m, b.timestamp) == Some(b)
    decreases |m|
  {
    if m != [] {
      MappedFirst(ValueOf, m);
      GetIsIn(m[1..], b);
      var values := Mapped(ValueOf, m);
      assert values == [values[0]] + values[1..];
      if m[0].key == b.timestamp && b in Mapped(ValueOf, m[1..]) {
        GetPlace(m[1..], b.timestamp);
      }
    }
  }

  lemma {:induction false} GetPlace(m: Map<int, Bar>, k: int)
    requires Get(m, k).Some?
    ensures exists i :: 0 <= i < |m| && m[i].key == k
    decreases |m|
  {
    if m[0].key != k { GetPlace(m[1..], k); }
  }

  /** The imported bar of a timestamp, or else the existing one if that is kept. */
  function Preferred(existing: seq<Bar>, imported: seq<Bar>, replace: bool, t: int): Option<Bar>
  {
    match LastAt(imported, t)
    case Some(b) => Some(b)
    case None => if replace then None else LastAt(existing, t)
  }

  /** A merge holds exactly the preferred bar of every timestamp, in time order; the result is the
      last 2000 of them. */
  lemma {:induction false} MergeIsByTimestamp(existing: seq<Bar>, imported: seq<Bar>, replace: bool)
    ensures Rising(MergedAll(existing, imported, replace))
    ensures forall b :: b in MergedAll(existing, imported, replace) <==> Preferred(existing, imported, replace, b.timestamp) == Some(b)
  {
    var old' := if replace then [] else existing;
    var m := PutAll([], old');
    var all := PutAll(m, imported);
    PutAllKeyed([], old');
    PutAllKeyed(m, imported);
    forall i, j | 0 <= i < j < |all| ensures Mapped(ValueOf, all)[i].timestamp < Mapped(ValueOf, all)[j].timestamp {
      MappedAt(ValueOf, all, i);
      MappedAt(ValueOf, all, j);
      assert Goes(Less, all[i].key, all[j].key);
    }
    forall b ensures b in Mapped(ValueOf, all) <==> Preferred(existing, imported, replace, b.timestamp) == Some(b) {
      GetIsIn(all, b);
      GetPutAll(m, imported, b.timestamp);
      GetPutAll([], old', b.timestamp);
    }
  }

  lemma RisingNext(m: Map<int, Bar>, bars: seq<Bar>, e: Entry<int, Bar>)
    requires Rising(bars) && |bars| > 1 && Precedes(Less, m, bars[0].timestamp) && e.key == bars[0].timestamp
    ensures Rising(bars[1..]) && Precedes(Less, m + [e], bars[1].timestamp)
  {
    forall i | 0 <= i < |m| ensures Goes(Less, m[i].key, bars[1].timestamp) { assert Goes(Less, m[i].key, e.key); }
  }

  lemma {:induction false} PutAllRising(m: Map<int, Bar>, bars: seq<Bar>)
    requires Rising(bars) && (bars != [] ==> Precedes(Less, m, bars[0].timestamp))
    ensures Mapped(ValueOf, PutAll(m, bars)) == Mapped(ValueOf, m) + bars
    decreases |bars|
  {
    if bars == [] {
      assert Mapped(ValueOf, m) + bars == Mapped(ValueOf, m);
    } else {
      var e := Entry(bars[0].timestamp, bars[0]);
      PutLast(Less, m, e.key, e.value);
      MappedSnoc(ValueOf, m, e);
      if |bars| > 1 { RisingNext(m, bars, e); }
      PutAllRising(m + [e], bars[1..]);
      assert [bars[0]] + bars[1..] == bars;
      Regroup(Mapped(ValueOf, m), [bars[0]], bars[1..]);
    }
  }

  /** Bars in rising order that replace what was there are taken over as they are. */
  lemma {:induction false} ReplacingTakesOver(existing: seq<Bar>, imported: seq<Bar>)
    requires Rising(imported)
    ensures Merged(existing, imported, true) == Recent(imported)
  {
    PutAllRising([], imported);
    assert Mapped(ValueOf, []) + imported == imported;
  }

  method MergePeriodBars(existing: seq<Bar>, imported: seq<Bar>, replace: bool) returns (r: seq<Bar>)
    ensures r == Merged(existing, imported, replace)
  {
    var merged: Map<int, Bar> := [];
    if !replace { merged := PutBars(merged, existing); }
    merged := PutBars(merged, imported);
    r := Evict(Mapped(ValueOf, merged));
  }

  method PutBars(m: Map<int, Bar>, bars: seq<Bar>) returns (r: Map<int, Bar>)
    ensures r == PutAll(m, bars)
  {
    r := m;
    var rest := bars;
    while rest != []
      invariant PutAll(r, rest) == PutAll(m, bars)
    {
      r, rest := Put(Less, r, rest[0].timestamp, rest[0]), rest[1..];
    }
  }

  /** The periods rebuilt from an import: the base period and every coarser one. */
  function ImportPeriods(base: Period): (ps: seq<Period>)
    ensures forall p :: p in ps <==> Width(base) <= Width(p)
  {
    match base case M1 => [M1, M5, M15, D1] case M5 => [M5, M15, D1] case M15 => [M15, D1] case D1 => [D1]
  }

  lemma WidthMultiple(base: Period, p: Period) returns (n: nat)
    requires Width(base) <= Width(p)
    ensures n > 0 && Width(p) == n * Width(base)
  {
    n := Width(p) / Width(base);
  }

  /** Importing goes through the base period: every rebuilt period is the rows aggregated directly, but
      for those of the first base bucket, and rising in time when the rows are sorted. With no such
      rows it makes no difference at all; with any the base period itself comes out different. */
  lemma {:induction false} ImportIsDirect(base: Period, p: Period, rows: seq<Bar>)
    requires Width(base) <= Width(p)
    ensures p in ImportPeriods(base)
    ensures Aggregate(Width(p), Aggregate(Width(base), rows)) == Aggregate(Width(p), LastingOnly(Width(base), rows))
    ensures !HasEarly(Width(base), rows) ==> Aggregate(Width(p), Aggregate(Width(base), rows)) == Aggregate(Width(p), rows)
    ensures p == base ==>
      (Aggregate(Width(p), Aggregate(Width(base), rows)) == Aggregate(Width(p), rows) <==> !HasEarly(Width(base), rows))
    ensures Sorted(rows) ==> Rising(Aggregate(Width(p), Aggregate(Width(base), rows)))
  {
    var w := Width(base);
    var n := WidthMultiple(base, p);
    AggregateComposes(w, n, Width(p), rows);
    EarlyMatters(w, rows);
    if Sorted(rows) {
      LastingSorted(w, rows);
      SortedGivesRising(Width(p), LastingOnly(w, rows));
    }
  }

  /** Leaving out the rows of the first bucket makes no difference when there are none, and does show
      in bars of that width when there are. */
  lemma {:induction false} EarlyMatters(w: nat, rows: seq<Bar>)
    requires w > 0
    ensures !HasEarly(w, rows) ==> forall q: nat :: q > 0 ==> Aggregate(q, LastingOnly(w, rows)) == Aggregate(q, rows)
    ensures HasEarly(w, rows) ==> Aggregate(w, LastingOnly(w, rows)) != Aggregate(w, rows)
  {
    if HasEarly(w, rows) {
      ZeroStamp(w, rows);
      ZeroStamp(w, LastingOnly(w, rows));
      LastingAll(w, rows);
    } else {
      forall i | 0 <= i < |rows| ensures rows[i].timestamp <= 0 || Lasting(w, rows[i]) { assert !Early(w, rows[i]); }
      AllLasting(w, rows);
    }
  }

  lemma {:induction false} LastingSorted(width: nat, bars: seq<Bar>)
    requires Sorted(bars)
    ensures Sorted(LastingOnly(width, bars))
    decreases |bars|
  {
    if bars != [] {
      var front := bars[..|bars| - 1];
      LastingSorted(width, front);
      LastingAll(width, front);
    }
  }
}
