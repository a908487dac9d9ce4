/** The backtest report: the average-cost ledger that matches closes to opens, and the one-pass
    drawdown. Prices are exact numbers; the Sharpe ratio is not modelled. */
module Backtest {
  import opened Bytes
  import opened Options
  import opened OrderedMap
  import opened Texts

  datatype Trade = Trade(instrument: text, buy: bool, open: bool, price: real, volume: int)

  datatype Position = Position(average: real, volume: int, buy: bool)

  const FLAT := Position(0.0, 0, true)

  type Positions = Map<text, Position>

  datatype Ledger = Ledger(positions: Positions, pnls: seq<real>, grossProfit: real, grossLoss: real)

  const EMPTY := Ledger([], [], 0.0, 0.0)

  // ----- the ledger -----

  function Opened(p: Position, t: Trade): Position
    requires p.volume >= 0 && t.volume > 0
  {
    if p.volume == 0 then Position(t.price, t.volume, t.buy)
    else if p.buy == t.buy then
      Position((p.average * p.volume as real + t.price * t.volume as real) / (p.volume + t.volume) as real,
               p.volume + t.volume, p.buy)
    else p
  }

  /** A close takes the trade's volume or all that is held, whichever is less. */
  function Clipped(p: Position, t: Trade): (c: int)
    ensures c <= t.volume && c <= p.volume && (c == t.volume || c == p.volume)
  {
    if t.volume < p.volume then t.volume else p.volume
  }

  function Pnl(p: Position, t: Trade): real
  {
    if p.buy then (t.price - p.average) * Clipped(p, t) as real else (p.average - t.price) * Clipped(p, t) as real
  }

  function At(l: Ledger, t: Trade): Position
  {
    GetOr(l.positions, t.instrument, FLAT)
  }

  function Apply(l: Ledger, t: Trade): Ledger
    requires At(l, t).volume >= 0 && t.volume > 0
  {
    var p := At(l, t);
    if t.open then
      l.(positions := Put(Below, l.positions, t.instrument, Opened(p, t)))
    else if p.volume <= 0 then
      l.(positions := Put(Below, l.positions, t.instrument, p))
    else
      var pnl := Pnl(p, t);
      Ledger(Put(Below, l.positions, t.instrument, p.(volume := p.volume - Clipped(p, t))),
             l.pnls + [pnl],
             if pnl > 0.0 then l.grossProfit + pnl else l.grossProfit,
             if pnl > 0.0 then l.grossLoss else l.grossLoss + (if pnl < 0.0 then -pnl else pnl))
  }

  // ----- what a trade does to cash -----

  /** An open that the ledger takes: into a flat position, or the way the position already goes. */
  predicate Accepted(p: Position, t: Trade)
  {
    t.open && (p.volume == 0 || p.buy == t.buy)
  }

  function Least(a: int, b: int): (m: int)
    ensures m <= a && m <= b && (m == a || m == b)
  {
    if a < b then a else b
  }

  /** The cash a trade moves, as far as the ledger takes it. */
  function CashOf(p: Position, t: Trade): real
  {
    if Accepted(p, t) then (if t.buy then -t.price else t.price) * t.volume as real
    else if !t.open && p.volume > 0 then (if p.buy then t.price else -t.price) * Least(t.volume, p.volume) as real
    else 0.0
  }

  /** What an open position is carried at: its volume at average cost, negative when short. */
  function Carried(p: Position): real
  {
    (if p.buy then p.average else -p.average) * p.volume as real
  }

  function Sum(xs: seq<real>): real
    decreases |xs|
  {
    if xs == [] then 0.0 else Sum(xs[..|xs| - 1]) + xs[|xs| - 1]
  }

  lemma {:induction false} SumSnoc(xs: seq<real>, x: real)
    ensures Sum(xs + [x]) == Sum(xs) + x
  {
    assert (xs + [x])[..|xs|] == xs;
  }

  /** The books: everything carried, over all instruments. */
  function Book(m: Positions): real
    decreases |m|
  {
    if m == [] then 0.0 else Carried(m[0].value) + Book(m[1..])
  }

  // ----- the ledger after a list of trades -----

  predicate Positive(trades: seq<Trade>)
  {
    forall i :: 0 <= i < |trades| ==> trades[i].volume > 0
  }

  /** No position is negative, and they are in order. */
  ghost predicate Sound(m: Positions)
  {
    Ascending(Below, m) && forall i :: 0 <= i < |m| ==> m[i].value.volume >= 0
  }

  lemma {:induction false} GetSound(m: Positions, k: text)
    requires forall i :: 0 <= i < |m| ==> m[i].value.volume >= 0
    ensures GetOr(m, k, FLAT).volume >= 0
    decreases |m|
  {
    if m != [] { GetSound(m[1..], k); }
  }

  lemma PutSound(m: Positions, k: text, p: Position)
    requires Sound(m) && p.volume >= 0
    ensures Sound(Put(Below, m, k, p))
  {
    BelowIsStrictOrder();
    PutKeepsOrder(Below, m, k, p);
    var r := Put(Below, m, k, p);
    forall i | 0 <= i < |r| ensures r[i].value.volume >= 0 { assert r[i] in r; }
  }

  lemma ApplySound(l: Ledger, t: Trade)
    requires Sound(l.positions) && t.volume > 0
    ensures At(l, t).volume >= 0 && Sound(Apply(l, t).positions)
  {
    GetSound(l.positions, t.instrument);
    var p := At(l, t);
    if t.open { PutSound(l.positions, t.instrument, Opened(p, t)); }
    else if p.volume <= 0 { PutSound(l.positions, t.instrument, p); }
    else { PutSound(l.positions, t.instrument, p.(volume := p.volume - Clipped(p, t))); }
  }

  ghost function Post(trades: seq<Trade>): (l: Ledger)
    requires Positive(trades)
    ensures Sound(l.positions)
    decreases |trades|
  {
    if trades == [] then EMPTY
    else
      var l := Post(trades[..|trades| - 1]);
      ApplySound(l, trades[|trades| - 1]);
      Apply(l, trades[|trades| - 1])
  }

  /** The net cash of all opens and closes the ledger took. */
  ghost function Cash(trades: seq<Trade>): real
    requires Positive(trades)
    decreases |trades|
  {
    if trades == [] then 0.0
    else Cash(trades[..|trades| - 1]) + CashOf(At(Post(trades[..|trades| - 1]), trades[|trades| - 1]), trades[|trades| - 1])
  }

  // ----- conservation -----

  lemma {:induction false} AbsentAbove(less: (text, text) -> bool, m: Positions, k: text)
    requires StrictOrder(less) && Ascending(less, m) && m != [] && less(k, m[0].key)
    ensures Get(m, k) == None
  {
    forall i | 0 <= i < |m| ensures less(k, m[i].key) {
      if i > 0 { assert Goes(less, m[0].key, m[i].key); }
    }
    AbsentBelow(less, m, k);
  }

  /** Storing a position changes the books by the difference it makes. */
  lemma {:induction false} BookPut(less: (text, text) -> bool, m: Positions, k: text, p: Position)
    requires StrictOrder(less) && Ascending(less, m)
    ensures Book(Put(less, m, k, p)) == Book(m) - Carried(GetOr(m, k, FLAT)) + Carried(p)
    decreases |m|
  {
    if m == [] {
      assert [Entry(k, p)][1..] == [];
    } else if m[0].key == k {
      assert Put(less, m, k, p)[1..] == m[1..];
    } else if less(k, m[0].key) {
      AbsentAbove(less, m, k);
      assert Put(less, m, k, p)[1..] == m;
    } else {
      BookPut(less, m[1..], k, p);
      assert Put(less, m, k, p)[1..] == Put(less, m[1..], k, p);
    }
  }

  lemma BookPutText(m: Positions, k: text, p: Position)
    requires Ascending(Below, m)
    ensures Book(Put(Below, m, k, p)) == Book(m) - Carried(GetOr(m, k, FLAT)) + Carried(p)
  {
    BelowIsStrictOrder();
    BookPut(Below, m, k, p);
  }

  lemma AverageTimesVolume(a: real, v: int, price: real, n: int)
    requires v >= 0 && n > 0
    ensures ((a * v as real + price * n as real) / (v + n) as real) * (v + n) as real == a * v as real + price * n as real
  {
    var total, volume := a * v as real + price * n as real, (v + n) as real;
    assert (total / volume) * volume == total;
  }

  /** An open the ledger takes is carried at what it cost; one it ignores changes nothing. */
  lemma OpenCarries(p: Position, t: Trade)
    requires p.volume >= 0 && t.volume > 0 && t.open
    ensures CashOf(p, t) + Carried(Opened(p, t)) == Carried(p)
  {
    if p.volume > 0 && p.buy == t.buy { AverageTimesVolume(p.average, p.volume, t.price, t.volume); }
  }

  lemma MinusTimes(a: real, b: real, c: real)
    ensures (a - b) * c == a * c - b * c
    ensures (-a) * c == -(a * c)
  {}

  /** A close earns its cash less the cost of what it closes. */
  lemma CloseEarns(p: Position, t: Trade)
    requires p.volume > 0 && t.volume > 0 && !t.open
    ensures var left := p.(volume := p.volume - Clipped(p, t));
      Pnl(p, t) == CashOf(p, t) + Carried(left) - Carried(p)
  {
    assert Clipped(p, t) == Least(t.volume, p.volume);
    var c, v := Clipped(p, t) as real, p.volume as real;
    MinusTimes(t.price, p.average, c);
    MinusTimes(p.average, t.price, c);
    MinusTimes(t.price, 0.0, c);
    MinusTimes(p.average, 0.0, v);
    MinusTimes(p.average, 0.0, v - c);
    assert p.average * (v - c) == p.average * v - p.average * c by { MinusTimes(v, c, p.average); }
  }

  lemma ApplyConserves(l: Ledger, t: Trade)
    requires Sound(l.positions) && t.volume > 0
    ensures At(l, t).volume >= 0
    ensures var m := Apply(l, t);
      Sum(m.pnls) - Book(m.positions) == Sum(l.pnls) - Book(l.positions) + CashOf(At(l, t), t)
    ensures var m := Apply(l, t);
      Sum(m.pnls) - (m.grossProfit - m.grossLoss) == Sum(l.pnls) - (l.grossProfit - l.grossLoss)
  {
    GetSound(l.positions, t.instrument);
    var p := At(l, t);
    if t.open {
      BookPutText(l.positions, t.instrument, Opened(p, t));
      OpenCarries(p, t);
    } else if p.volume <= 0 {
      BookPutText(l.positions, t.instrument, p);
    } else {
      BookPutText(l.positions, t.instrument, p.(volume := p.volume - Clipped(p, t)));
      CloseEarns(p, t);
      SumSnoc(l.pnls, Pnl(p, t));
    }
  }

  /** Total realised profit is the net cash of everything the ledger took plus what is still
      carried, over all instruments, and it is gross profit less gross loss. */
  lemma {:induction false} LedgerConserves(trades: seq<Trade>)
    requires Positive(trades)
    ensures Sum(Post(trades).pnls) == Cash(trades) + Book(Post(trades).positions)
    ensures Sum(Post(trades).pnls) == Post(trades).grossProfit - Post(trades).grossLoss
    decreases |trades|
  {
    if trades != [] {
      var front := trades[..|trades| - 1];
      LedgerConserves(front);
      ApplyConserves(Post(front), trades[|trades| - 1]);
    }
  }

  /** Gross amounts only collect: neither is ever negative. */
  lemma {:induction false} GrossNonNegative(trades: seq<Trade>)
    requires Positive(trades)
    ensures Post(trades).grossProfit >= 0.0 && Post(trades).grossLoss >= 0.0
    decreases |trades|
  {
    if trades != [] { GrossNonNegative(trades[..|trades| - 1]); }
  }

  // ----- what becomes of a position -----

  /** The position of an instrument after a list of trades. */
  ghost function Holding(trades: seq<Trade>, k: text): Position
    requires Positive(trades)
  {
    GetOr(Post(trades).positions, k, FLAT)
  }

  /** What the ledger stores after a trade of an instrument it holds p of. */
  function Stored(p: Position, t: Trade): Position
    requires p.volume >= 0 && t.volume > 0
  {
    if t.open then Opened(p, t) else if p.volume <= 0 then p else p.(volume := p.volume - Clipped(p, t))
  }

  lemma {:induction false} HoldingSnoc(front: seq<Trade>, t: Trade, k: text)
    requires Positive(front) && t.volume > 0
    ensures Positive(front + [t]) && Holding(front, t.instrument).volume >= 0
    ensures Post(front + [t]) == Apply(Post(front), t)
    ensures Holding(front + [t], k) == if k == t.instrument then Stored(Holding(front, k), t) else Holding(front, k)
  {
    assert (front + [t])[..|front|] == front;
    ApplySound(Post(front), t);
    BelowIsStrictOrder();
    GetPut(Below, Post(front).positions, t.instrument, Stored(Holding(front, t.instrument), t), k);
  }

  /** The volume of the opens of an instrument that the ledger took. */
  ghost function VolumeIn(trades: seq<Trade>, k: text): int
    requires Positive(trades)
    decreases |trades|
  {
    if trades == [] then 0
    else
      var front, t := trades[..|trades| - 1], trades[|trades| - 1];
      VolumeIn(front, k) + if t.instrument == k && Accepted(Holding(front, k), t) then t.volume else 0
  }

  /** The volume of its closes, each as far as there was anything to close. */
  ghost function VolumeOut(trades: seq<Trade>, k: text): int
    requires Positive(trades)
    decreases |trades|
  {
    if trades == [] then 0
    else
      var front, t := trades[..|trades| - 1], trades[|trades| - 1];
      VolumeOut(front, k) + if t.instrument == k && !t.open then Least(t.volume, Holding(front, k).volume) else 0
  }

  /** What is held of an instrument is the volume of the opens taken less the volume closed, and never
      negative. */
  lemma {:induction false} VolumeAddsUp(trades: seq<Trade>, k: text)
    requires Positive(trades)
    ensures Holding(trades, k).volume == VolumeIn(trades, k) - VolumeOut(trades, k) >= 0
    decreases |trades|
  {
    if trades != [] {
      var front, t := trades[..|trades| - 1], trades[|trades| - 1];
      assert trades == front + [t];
      VolumeAddsUp(front, k);
      HoldingSnoc(front, t, k);
    }
  }

  /** q is p with the volume and the cost of an open added. */
  predicate Averages(q: Position, p: Position, t: Trade)
  {
    && q.volume == p.volume + t.volume && q.buy == t.buy
    && q.average * q.volume as real == p.average * p.volume as real + t.price * t.volume as real
  }

  lemma StoredPosition(p: Position, t: Trade)
    requires p.volume >= 0 && t.volume > 0
    ensures Accepted(p, t) ==> Averages(Stored(p, t), p, t)
    ensures !Accepted(p, t) ==>
      Stored(p, t) == p.(volume := if t.open then p.volume else p.volume - Least(t.volume, p.volume))
  {
    if p.volume > 0 { AverageTimesVolume(p.average, p.volume, t.price, t.volume); }
  }

  /** What a trade of an instrument makes of its position: an open taken averages the cost over the
      volume and goes the way of the trade, a close lowers the volume alone, and anything else leaves
      it as it was. */
  lemma {:induction false} PositionAfter(front: seq<Trade>, t: Trade)
    requires Positive(front) && t.volume > 0
    ensures Positive(front + [t])
    ensures var p, q := Holding(front, t.instrument), Holding(front + [t], t.instrument);
      if Accepted(p, t) then Averages(q, p, t)
      else q == p.(volume := if t.open then p.volume else p.volume - Least(t.volume, p.volume))
  {
    HoldingSnoc(front, t, t.instrument);
    StoredPosition(Holding(front, t.instrument), t);
  }

  /** The difference to the average cost on every lot closed, the other way round when short. */
  function Earned(p: Position, t: Trade): real
  {
    (if p.buy then t.price - p.average else p.average - t.price) * Least(t.volume, p.volume) as real
  }

  lemma PnlIsEarned(p: Position, t: Trade)
    ensures Pnl(p, t) == Earned(p, t)
  {
    assert Clipped(p, t) == Least(t.volume, p.volume);
  }

  /** Only a close of something held is a round trip, and one only. */
  lemma {:induction false} RoundTripOf(front: seq<Trade>, t: Trade)
    requires Positive(front) && t.volume > 0
    ensures Positive(front + [t])
    ensures var p := Holding(front, t.instrument);
      Post(front + [t]).pnls == Post(front).pnls + if !t.open && p.volume > 0 then [Earned(p, t)] else []
  {
    HoldingSnoc(front, t, t.instrument);
    PnlIsEarned(Holding(front, t.instrument), t);
    assert Post(front).pnls + [] == Post(front).pnls;
  }

  /** The gains among some round trips. */
  function Gains(pnls: seq<real>): real
    decreases |pnls|
  {
    if pnls == [] then 0.0 else Gains(pnls[..|pnls| - 1]) + if pnls[|pnls| - 1] > 0.0 then pnls[|pnls| - 1] else 0.0
  }

  lemma {:induction false} GainsSnoc(pnls: seq<real>, x: real)
    ensures Gains(pnls + [x]) == Gains(pnls) + if x > 0.0 then x else 0.0
  {
    assert (pnls + [x])[..|pnls|] == pnls;
  }

  lemma GrossStep(l: Ledger, t: Trade)
    requires At(l, t).volume >= 0 && t.volume > 0 && l.grossProfit == Gains(l.pnls)
    ensures Apply(l, t).grossProfit == Gains(Apply(l, t).pnls)
  {
    GainsSnoc(l.pnls, Pnl(At(l, t), t));
  }

  /** Gross profit is the sum of the gains, and gross loss what the other round trips lost. */
  lemma {:induction false} GrossIsGains(trades: seq<Trade>)
    requires Positive(trades)
    ensures Post(trades).grossProfit == Gains(Post(trades).pnls)
    ensures Post(trades).grossLoss == Gains(Post(trades).pnls) - Sum(Post(trades).pnls)
    decreases |trades|
  {
    LedgerConserves(trades);
    if trades != [] {
      var front := trades[..|trades| - 1];
      GrossIsGains(front);
      ApplySound(Post(front), trades[|trades| - 1]);
      GrossStep(Post(front), trades[|trades| - 1]);
    }
  }

  // ----- drawdown -----

  /** The profit curve after the first k round trips. */
  function Curve(pnls: seq<real>, k: nat): real
    requires k <= |pnls|
  {
    Sum(pnls[..k])
  }

  /** The quadratic definition: the deepest fall from any point of the curve to any later one. */
  ghost predicate IsMaxDrawdown(d: real, pnls: seq<real>)
  {
    && (forall i, j :: 0 <= i <= j <= |pnls| ==> Curve(pnls, i) - Curve(pnls, j) <= d)
    && (exists i, j :: 0 <= i <= j <= |pnls| && Curve(pnls, i) - Curve(pnls, j) == d)
  }

  ghost predicate IsPeak(peak: real, pnls: seq<real>, n: nat)
    requires n <= |pnls|
  {
    && (forall i :: 0 <= i <= n ==> Curve(pnls, i) <= peak)
    && (exists i :: 0 <= i <= n && Curve(pnls, i) == peak)
  }

  ghost predicate IsDrawdown(d: real, pnls: seq<real>, n: nat)
    requires n <= |pnls|
  {
    && (forall i, j :: 0 <= i <= j <= n ==> Curve(pnls, i) - Curve(pnls, j) <= d)
    && (exists i, j :: 0 <= i <= j <= n && Curve(pnls, i) - Curve(pnls, j) == d)
  }

  /** The extreme of the curve after at least one trip, no further than the given bound. */
  ghost predicate IsHighest(x: real, floor: real, pnls: seq<real>, n: nat)
    requires n <= |pnls|
  {
    && x >= floor && (forall i :: 1 <= i <= n ==> Curve(pnls, i) <= x)
    && (x == floor || exists i :: 1 <= i <= n && Curve(pnls, i) == x)
  }

  ghost predicate IsLowest(x: real, ceiling: real, pnls: seq<real>, n: nat)
    requires n <= |pnls|
  {
    && x <= ceiling && (forall i :: 1 <= i <= n ==> x <= Curve(pnls, i))
    && (x == ceiling || exists i :: 1 <= i <= n && Curve(pnls, i) == x)
  }

  lemma CurveStep(pnls: seq<real>, k: nat)
    requires k < |pnls|
    ensures Curve(pnls, k + 1) == Curve(pnls, k) + pnls[k]
  {
    assert pnls[..k + 1] == pnls[..k] + [pnls[k]];
    SumSnoc(pnls[..k], pnls[k]);
  }

  lemma PeakStep(peak: real, next: real, pnls: seq<real>, n: nat)
    requires n < |pnls| && IsPeak(peak, pnls, n)
    requires next == if Curve(pnls, n + 1) > peak then Curve(pnls, n + 1) else peak
    ensures IsPeak(next, pnls, n + 1)
  {
    var i :| 0 <= i <= n && Curve(pnls, i) == peak;
    assert Curve(pnls, if Curve(pnls, n + 1) > peak then n + 1 else i) == next;
  }

  lemma DrawdownStep(d: real, next: real, peak: real, pnls: seq<real>, n: nat)
    requires n < |pnls| && IsDrawdown(d, pnls, n) && IsPeak(peak, pnls, n + 1)
    requires var fall := peak - Curve(pnls, n + 1); next == if fall > d then fall else d
    ensures IsDrawdown(next, pnls, n + 1)
  {
    forall i, j | 0 <= i <= j <= n + 1 ensures Curve(pnls, i) - Curve(pnls, j) <= next {
      if j == n + 1 { assert Curve(pnls, i) <= peak; }
    }
    var i, j :| 0 <= i <= j <= n && Curve(pnls, i) - Curve(pnls, j) == d;
    var k :| 0 <= k <= n + 1 && Curve(pnls, k) == peak;
    if peak - Curve(pnls, n + 1) > d {
      assert Curve(pnls, k) - Curve(pnls, n + 1) == next;
    } else {
      assert Curve(pnls, i) - Curve(pnls, j) == next;
    }
  }

  lemma HighestStep(x: real, next: real, floor: real, pnls: seq<real>, n: nat)
    requires n < |pnls| && IsHighest(x, floor, pnls, n)
    requires next == if Curve(pnls, n + 1) > x then Curve(pnls, n + 1) else x
    ensures IsHighest(next, floor, pnls, n + 1)
  {}

  lemma LowestStep(x: real, next: real, ceiling: real, pnls: seq<real>, n: nat)
    requires n < |pnls| && IsLowest(x, ceiling, pnls, n)
    requires next == if Curve(pnls, n + 1) < x then Curve(pnls, n + 1) else x
    ensures IsLowest(next, ceiling, pnls, n + 1)
  {}

  const CEILING := 1000000000000000000.0

  /** The running figures after k round trips. */
  datatype Figures = Figures(cumulative: real, peak: real, maxDrawdown: real, maxPnl: real, minPnl: real)

  ghost predicate Track(f: Figures, pnls: seq<real>, k: nat)
    requires k <= |pnls|
  {
    && f.cumulative == Curve(pnls, k) && IsPeak(f.peak, pnls, k) && IsDrawdown(f.maxDrawdown, pnls, k)
    && IsHighest(f.maxPnl, -CEILING, pnls, k) && IsLowest(f.minPnl, CEILING, pnls, k)
  }

  lemma TrackNothing(pnls: seq<real>)
    ensures Track(Figures(0.0, 0.0, 0.0, -CEILING, CEILING), pnls, 0)
  {
    assert Curve(pnls, 0) == 0.0;
  }

  lemma TrackNext(f: Figures, pnls: seq<real>, k: nat, g: Figures, n: nat)
    requires k < |pnls| && n == k + 1 && Track(f, pnls, k)
    requires g.cumulative == f.cumulative + pnls[k]
    requires g.peak == if g.cumulative > f.peak then g.cumulative else f.peak
    requires g.maxDrawdown == if g.peak - g.cumulative > f.maxDrawdown then g.peak - g.cumulative else f.maxDrawdown
    requires g.maxPnl == if g.cumulative > f.maxPnl then g.cumulative else f.maxPnl
    requires g.minPnl == if g.cumulative < f.minPnl then g.cumulative else f.minPnl
    ensures Track(g, pnls, n)
  {
    CurveStep(pnls, k);
    PeakStep(f.peak, g.peak, pnls, k);
    DrawdownStep(f.maxDrawdown, g.maxDrawdown, g.peak, pnls, k);
    HighestStep(f.maxPnl, g.maxPnl, -CEILING, pnls, k);
    LowestStep(f.minPnl, g.minPnl, CEILING, pnls, k);
  }

  lemma TrackEnd(f: Figures, pnls: seq<real>)
    requires Track(f, pnls, |pnls|)
    ensures IsMaxDrawdown(f.maxDrawdown, pnls)
  {}

  /** One turn of the pass over the round trips: right figures for the first k of them become right
      figures for one more. */
  method Advance(f: Figures, pnl: real, ghost pnls: seq<real>, ghost k: nat, ghost n: nat) returns (g: Figures)
    requires k < |pnls| && n == k + 1 && pnl == pnls[k] && Track(f, pnls, k)
    ensures Track(g, pnls, n)
  {
    var cumulative, peak := f.cumulative + pnl, f.peak;
    if cumulative > peak { peak := cumulative; }
    var dd, maxDrawdown, maxPnl, minPnl := peak - cumulative, f.maxDrawdown, f.maxPnl, f.minPnl;
    if dd > maxDrawdown { maxDrawdown := dd; }
    if cumulative > maxPnl { maxPnl := cumulative; }
    if cumulative < minPnl { minPnl := cumulative; }
    g := Figures(cumulative, peak, maxDrawdown, maxPnl, minPnl);
    TrackNext(f, pnls, k, g, n);
  }

  method Extremes(pnls: seq<real>) returns (f: Figures)
    ensures Track(f, pnls, |pnls|) && IsMaxDrawdown(f.maxDrawdown, pnls)
  {
    f := Figures(0.0, 0.0, 0.0, -CEILING, CEILING);
    TrackNothing(pnls);
    var k := 0;
    while k < |pnls|
      invariant 0 <= k <= |pnls| && Track(f, pnls, k)
    {
      var n := k + 1;
      f := Advance(f, pnls[k], pnls, k, n);
      k := n;
    }
    TrackEnd(f, pnls);
  }

  // ----- the report -----

  datatype Report = Report(
    totalTicks: int, totalTrades: int, winningTrades: int, losingTrades: int,
    totalPnl: real, maxDrawdown: real, winRate: real, profitFactor: real,
    maxPnl: real, minPnl: real, avgTradePnl: real)

  function Wins(pnls: seq<real>): nat
    decreases |pnls|
  {
    if pnls == [] then 0 else Wins(pnls[..|pnls| - 1]) + (if pnls[|pnls| - 1] > 0.0 then 1 else 0)
  }

  function Losses(pnls: seq<real>): nat
    decreases |pnls|
  {
    if pnls == [] then 0 else Losses(pnls[..|pnls| - 1]) + (if pnls[|pnls| - 1] < 0.0 then 1 else 0)
  }

  /** Winners and losers are counted by sign, and a round trip that comes out even is neither. */
  lemma {:induction false} WinsBySign(pnls: seq<real>)
    ensures Wins(pnls) == |set i | 0 <= i < |pnls| && pnls[i] > 0.0|
    decreases |pnls|
  {
    if pnls != [] {
      var n := |pnls| - 1;
      var front := pnls[..n];
      WinsBySign(front);
      assert (set i | 0 <= i < |pnls| && pnls[i] > 0.0)
        == (set i | 0 <= i < n && front[i] > 0.0) + (if pnls[n] > 0.0 then {n} else {});
    }
  }

  lemma {:induction false} LossesBySign(pnls: seq<real>)
    ensures Losses(pnls) == |set i | 0 <= i < |pnls| && pnls[i] < 0.0|
    decreases |pnls|
  {
    if pnls != [] {
      var n := |pnls| - 1;
      var front := pnls[..n];
      LossesBySign(front);
      assert (set i | 0 <= i < |pnls| && pnls[i] < 0.0)
        == (set i | 0 <= i < n && front[i] < 0.0) + (if pnls[n] < 0.0 then {n} else {});
    }
  }

  /** The matching loop: the ledger of a list of trades. */
  method Match(trades: seq<Trade>) returns (l: Ledger)
    requires Positive(trades)
    ensures l == Post(trades)
  {
    l := EMPTY;
    var k := 0;
    while k < |trades|
      invariant 0 <= k <= |trades| && l == Post(trades[..k])
    {
      assert trades[..k + 1][..k] == trades[..k];
      ApplySound(l, trades[k]);
      l := MatchOne(l, trades[k]);
      k := k + 1;
    }
    assert trades[..k] == trades;
  }

  method MatchOne(l: Ledger, t: Trade) returns (r: Ledger)
    requires At(l, t).volume >= 0 && t.volume > 0
    ensures r == Apply(l, t)
  {
    var was := GetOr(l.positions, t.instrument, FLAT);
    var p := was;
    var pnls, profit, loss := l.pnls, l.grossProfit, l.grossLoss;
    if t.open {
      if was.volume == 0 {
        p := Position(t.price, t.volume, t.buy);
      } else if was.buy == t.buy {
        var totalCost := was.average * was.volume as real + t.price * t.volume as real;
        p := Position(totalCost / (was.volume + t.volume) as real, was.volume + t.volume, was.buy);
      }
      assert p == Opened(was, t);
    } else if was.volume > 0 {
      var closeVol := Clipped(was, t);
      var pnl := if was.buy then (t.price - was.average) * closeVol as real else (was.average - t.price) * closeVol as real;
      assert pnl == Pnl(was, t);
      pnls := pnls + [pnl];
      if pnl > 0.0 { profit := profit + pnl; } else { loss := loss + (if pnl < 0.0 then -pnl else pnl); }
      p := was.(volume := was.volume - closeVol);
    }
    r := Ledger(Put(Below, l.positions, t.instrument, p), pnls, profit, loss);
  }

  method Totals(pnls: seq<real>) returns (total: real, wins: nat, losses: nat)
    ensures total == Sum(pnls) && wins == Wins(pnls) && losses == Losses(pnls)
  {
    total, wins, losses := 0.0, 0, 0;
    var k := 0;
    while k < |pnls|
      invariant 0 <= k <= |pnls|
      invariant total == Sum(pnls[..k]) && wins == Wins(pnls[..k]) && losses == Losses(pnls[..k])
    {
      assert pnls[..k + 1][..k] == pnls[..k];
      total := total + pnls[k];
      if pnls[k] > 0.0 { wins := wins + 1; } else if pnls[k] < 0.0 { losses := losses + 1; }
      k := k + 1;
    }
    assert pnls[..k] == pnls;
  }

  predicate IsRatio(q: real, wins: int, n: nat) { q * n as real == wins as real }

  predicate IsShare(q: real, total: real, n: nat) { q * n as real == total }

  predicate IsFactor(q: real, profit: real, loss: real)
  {
    if loss > 0.0 then q * loss == profit else q == 0.0
  }

  /** What a report says of a ledger with round trips. */
  ghost predicate Describes(r: Report, l: Ledger)
  {
    && r.totalPnl == Sum(l.pnls) && r.winningTrades == Wins(l.pnls) && r.losingTrades == Losses(l.pnls)
    && IsRatio(r.winRate, r.winningTrades, |l.pnls|) && IsShare(r.avgTradePnl, r.totalPnl, |l.pnls|)
    && IsFactor(r.profitFactor, l.grossProfit, l.grossLoss)
    && IsMaxDrawdown(r.maxDrawdown, l.pnls)
    && IsHighest(r.maxPnl, -1000000000000000000.0, l.pnls, |l.pnls|)
    && IsLowest(r.minPnl, 1000000000000000000.0, l.pnls, |l.pnls|)
  }

  method Summarise(l: Ledger, totalTicks: int, totalTrades: int) returns (r: Report)
    requires l.pnls != []
    ensures r.totalTicks == totalTicks && r.totalTrades == totalTrades && Describes(r, l)
  {
    var total, wins, losses := Totals(l.pnls);
    var f := Extremes(l.pnls);
    var winRate := Ratio(wins, |l.pnls|);
    var average := Share(total, |l.pnls|);
    var factor := Factor(l.grossProfit, l.grossLoss);
    r := Report(totalTicks, totalTrades, wins, losses, total, f.maxDrawdown, winRate, factor, f.maxPnl, f.minPnl, average);
    Described(r, l, f);
  }

  lemma Described(r: Report, l: Ledger, f: Figures)
    requires r.totalPnl == Sum(l.pnls) && r.winningTrades == Wins(l.pnls) && r.losingTrades == Losses(l.pnls)
    requires IsRatio(r.winRate, r.winningTrades, |l.pnls|) && IsShare(r.avgTradePnl, r.totalPnl, |l.pnls|)
    requires IsFactor(r.profitFactor, l.grossProfit, l.grossLoss)
    requires Track(f, l.pnls, |l.pnls|)
    requires r.maxDrawdown == f.maxDrawdown && r.maxPnl == f.maxPnl && r.minPnl == f.minPnl
    ensures Describes(r, l)
  {
    TrackEnd(f, l.pnls);
  }

  method Ratio(wins: int, n: nat) returns (q: real)
    requires n > 0
    ensures IsRatio(q, wins, n)
  {
    q := wins as real / n as real;
  }

  method Share(total: real, n: nat) returns (q: real)
    requires n > 0
    ensures IsShare(q, total, n)
  {
    q := total / n as real;
  }

  method Factor(profit: real, loss: real) returns (q: real)
    ensures IsFactor(q, profit, loss)
  {
    q := if loss > 0.0 then profit / loss else 0.0;
  }

  function Blank(totalTicks: int, totalTrades: int): Report
  {
    Report(totalTicks, totalTrades, 0, 0, 0.0, 0.0, 0.0, 0.0, 0.0, 0.0, 0.0)
  }

  /** The report; with no round trip everything but the counts stays at its default. */
  method ComputeReport(trades: seq<Trade>, totalTicks: int) returns (r: Report)
    requires Positive(trades)
    ensures r.totalTicks == totalTicks && r.totalTrades == |trades|
    ensures Post(trades).pnls == [] ==> r == Report(totalTicks, |trades|, 0, 0, 0.0, 0.0, 0.0, 0.0, 0.0, 0.0, 0.0)
    ensures Post(trades).pnls != [] ==> Describes(r, Post(trades))
  {
    r := Blank(totalTicks, |trades|);
    var l := Match(trades);
    if l.pnls != [] { r := Summarise(l, totalTicks, |trades|); }
  }
}
