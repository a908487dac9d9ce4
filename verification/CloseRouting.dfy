/** Closing on exchanges that tell today's from yesterday's position: how a plain close is routed
    or split, and what keeps live close orders from exceeding the position they close. One
    account, one instrument, one side. */
module CloseRouting {

  datatype Offset = CloseToday | CloseYesterday

  datatype Status = Pending | PartTraded | AllTraded | Cancelled | Error

  /** An order as the engine tracks it. `traded` is the engine's own count. The last two are what the
      statements go by, and no operation looks at them: `settled` is the volume of the order's trades
      that the position already reflects, `claimed` the most that a report has said it traded. */
  datatype Order = Order(offset: Offset, total: nat, traded: nat, status: Status, settled: nat, claimed: nat)

  /** The position and the orders sent against it; an order's reference is its place. The ids of
      the trades already counted guard against replays. */
  datatype Book = Book(today: nat, yesterday: nat, orders: seq<Order>, seen: set<int>)

  function Held(b: Book, o: Offset): nat
  {
    if o == CloseToday then b.today else b.yesterday
  }

  predicate Active(o: Order)
  {
    o.status == Pending || o.status == PartTraded
  }

  /** What the engine takes to be unfilled. */
  function Remaining(o: Order): nat
  {
    if Active(o) && o.traded < o.total then o.total - o.traded else 0
  }

  /** An amount of every order of one kind, added up. */
  function Volume(amount: Order -> nat, orders: seq<Order>, o: Offset): nat
    decreases |orders|
  {
    if orders == [] then 0
    else
      var last := orders[|orders| - 1];
      Volume(amount, orders[..|orders| - 1], o) + (if last.offset == o then amount(last) else 0)
  }

  /** The unfilled volume of one kind, as the engine counts it. */
  function Reserved(orders: seq<Order>, o: Offset): nat
  {
    Volume(Remaining, orders, o)
  }

  function Available(b: Book, o: Offset): nat
  {
    if Held(b, o) > Reserved(b.orders, o) then Held(b, o) - Reserved(b.orders, o) else 0
  }

  // ----- sending -----

  /** What the rest of the engine decides about one order: whether its other risk checks pass,
      and whether the gateway takes it. */
  datatype Outcome = Outcome(riskPasses: bool, gatewayTakes: bool)

  /** Send one order that names the position it closes: an order exists once the risk checks pass,
      even if the gateway then refuses it. */
  function Send(b: Book, o: Offset, volume: nat, e: Outcome): Book
  {
    if LetIn(b, o, volume, e) then b.(orders := b.orders + [Order(o, volume, 0, Pending, 0, 0)]) else b
  }

  predicate LetIn(b: Book, o: Offset, volume: nat, e: Outcome)
  {
    volume <= Available(b, o) && e.riskPasses
  }

  predicate Taken(b: Book, o: Offset, volume: nat, e: Outcome)
  {
    LetIn(b, o, volume, e) && e.gatewayTakes
  }

  /** How a plain close is routed. */
  datatype Route = Whole(offset: Offset) | Split(today: nat, yesterday: nat) | Refused

  function RouteOf(b: Book, volume: nat): Route
  {
    var today, yesterday := Available(b, CloseToday), Available(b, CloseYesterday);
    if volume <= today then Whole(CloseToday)
    else if volume <= yesterday then Whole(CloseYesterday)
    else if volume <= today + yesterday && today > 0 && yesterday > 0 then Split(today, volume - today)
    else Refused
  }

  /** A plain close: one order, or the two halves of a split one after the other. */
  function Close(b: Book, volume: nat, e: Outcome, f: Outcome): Book
  {
    match RouteOf(b, volume)
    case Whole(o) => Send(b, o, volume, e)
    case Split(today, yesterday) => Send(Send(b, CloseToday, today, e), CloseYesterday, yesterday, f)
    case Refused => b
  }

  // ----- what comes back -----

  predicate Terminal(s: Status)
  {
    s == AllTraded || s == Cancelled || s == Error
  }

  /** An order report: the status, traded volume and total it brings, unless it would revive an
      order that has ended. */
  function Reported(o: Order, status: Status, traded: nat, total: nat): (r: Order)
    ensures r.offset == o.offset && r.settled == o.settled && o.traded <= r.traded
    ensures Terminal(r.status) <==> Terminal(o.status) || Terminal(status)
    ensures Terminal(o.status) && !Terminal(status) ==> r == o
    ensures !Terminal(o.status) || Terminal(status) ==>
      r.status == status && r.total == total && traded <= r.traded && (r.traded == o.traded || r.traded == traded)
  {
    if Terminal(o.status) && !Terminal(status) then o
    else o.(status := status, traded := Larger(o.traded, traded), total := total, claimed := Larger(o.claimed, traded))
  }

  function Larger(a: nat, b: nat): nat
  {
    if a < b then b else a
  }

  /** A report on an order that is on the book. */
  function Report(b: Book, ref: nat, status: Status, traded: nat, total: nat): Book
  {
    if ref < |b.orders| then b.(orders := b.orders[ref := Reported(b.orders[ref], status, traded, total)]) else b
  }

  /** An order of this session that was not on the book is taken over from its report. */
  function Added(b: Book, x: Order): Book
  {
    b.(orders := b.orders + [x])
  }

  /** A trade, counted into its order. */
  function Filled(o: Order, volume: nat): (r: Order)
    ensures r.traded <= r.total == o.total && r.offset == o.offset
    ensures r.status == AllTraded <==> o.status != Cancelled && o.status != Error && o.traded + volume >= o.total
    ensures Terminal(r.status) && r.status != AllTraded ==> r.status == o.status
  {
    var traded := if o.traded + volume > o.total then o.total else o.traded + volume;
    o.(traded := traded, settled := o.settled + volume,
       status := if o.status == Cancelled || o.status == Error then o.status
                 else if traded >= o.total then AllTraded else PartTraded)
  }

  /** A trade closes position even when its order is not found or it has been counted before. */
  function Trade(b: Book, ref: nat, id: int, o: Offset, volume: nat): Book
  {
    var orders := if id !in b.seen && ref < |b.orders| then b.orders[ref := Filled(b.orders[ref], volume)] else b.orders;
    Book(if o == CloseToday then Reduced(b.today, volume) else b.today,
         if o == CloseYesterday then Reduced(b.yesterday, volume) else b.yesterday,
         orders, b.seen + {id})
  }

  function Reduced(n: nat, volume: nat): nat
  {
    if n < volume then 0 else n - volume
  }

  datatype Action =
    | PlainClose(volume: nat, first: Outcome, second: Outcome)
    | NamedClose(offset: Offset, volume: nat, outcome: Outcome)
    | OrderReturn(ref: nat, status: Status, traded: nat, total: nat)
    | OrderAdded(order: Order)
    | TradeReturn(ref: nat, id: int, offset: Offset, volume: nat)
    | OpenTrade(volume: nat)

  /** Volumes are positive, and a trade closes what its order closes. */
  predicate Enabled(b: Book, a: Action)
  {
    match a
    case PlainClose(volume, _, _) => volume > 0
    case NamedClose(_, volume, _) => volume > 0
    case OrderReturn(_, _, _, _) => true
    case OrderAdded(_) => true
    case TradeReturn(ref, _, o, volume) => volume > 0 && (ref < |b.orders| ==> b.orders[ref].offset == o)
    case OpenTrade(volume) => volume > 0
  }

  function Step(b: Book, a: Action): Book
    requires Enabled(b, a)
  {
    match a
    case PlainClose(volume, e, f) => Close(b, volume, e, f)
    case NamedClose(o, volume, e) => Send(b, o, volume, e)
    case OrderReturn(ref, status, traded, total) => Report(b, ref, status, traded, total)
    case OrderAdded(x) => Added(b, x)
    case TradeReturn(ref, id, o, volume) => Trade(b, ref, id, o, volume)
    case OpenTrade(volume) => b.(today := b.today + volume)
  }

  // ----- what live orders can still take from the position -----

  predicate Ended(o: Order)
  {
    o.status == Cancelled || o.status == Error
  }

  /** What an order trades at most: its total, or, once it is cancelled or has failed, what its reports
      say it traded. */
  function Due(o: Order): nat
  {
    if Ended(o) && o.claimed < o.total then o.claimed else o.total
  }

  /** What an order may yet close of the position as it is booked: all that is due and not settled. A
      cancelled order still has a claim while trades that its reports told of are to come. */
  function Live(o: Order): nat
  {
    if o.settled >= Due(o) then 0 else Due(o) - o.settled
  }

  function LiveVolume(b: Book, o: Offset): nat
  {
    Volume(Live, b.orders, o)
  }

  /** The position of a kind that no live order can claim. */
  function Free(b: Book, o: Offset): int
  {
    Held(b, o) - LiveVolume(b, o)
  }

  /** Live close orders do not exceed the position of their kind. */
  predicate Covered(b: Book)
  {
    Free(b, CloseToday) >= 0 && Free(b, CloseYesterday) >= 0
  }

  lemma {:induction false} VolumeSnoc(amount: Order -> nat, orders: seq<Order>, x: Order, o: Offset)
    ensures Volume(amount, orders + [x], o) == Volume(amount, orders, o) + (if x.offset == o then amount(x) else 0)
  {
    assert (orders + [x])[..|orders|] == orders;
  }

  /** Changing one order changes a volume by the change in that order's amount. */
  lemma {:induction false} VolumeUpdate(amount: Order -> nat, orders: seq<Order>, ref: nat, x: Order, o: Offset)
    requires ref < |orders| && x.offset == orders[ref].offset
    ensures Volume(amount, orders[ref := x], o)
      == Volume(amount, orders, o) + (if x.offset == o then amount(x) - amount(orders[ref]) else 0)
    decreases |orders|
  {
    var front := orders[..|orders| - 1];
    if ref == |orders| - 1 {
      assert orders[ref := x][..|orders| - 1] == front;
    } else {
      VolumeUpdate(amount, front, ref, x, o);
      assert orders[ref := x][..|orders| - 1] == front[ref := x];
    }
  }

  // ----- which steps keep live orders covered -----

  /** A close that is let in fits into the free position of its kind. */
  predicate SendFits(b: Book, o: Offset, volume: nat, e: Outcome)
  {
    LetIn(b, o, volume, e) ==> volume <= Free(b, o)
  }

  predicate CloseFits(b: Book, volume: nat, e: Outcome, f: Outcome)
  {
    match RouteOf(b, volume)
    case Whole(o) => SendFits(b, o, volume, e)
    case Split(today, yesterday) => SendFits(b, CloseToday, today, e) && SendFits(b, CloseYesterday, yesterday, f)
    case Refused => true
  }

  /** A report raises the claim of its order by no more than is free. */
  predicate ReportFits(b: Book, ref: nat, status: Status, traded: nat, total: nat)
  {
    ref < |b.orders| ==>
      var x := b.orders[ref];
      Live(Reported(x, status, traded, total)) - Live(x) <= Free(b, x.offset)
  }

  /** How much of a trade comes out of its own order's claim. */
  function Given(b: Book, ref: nat, id: int, volume: nat): nat
  {
    if id in b.seen || ref >= |b.orders| then 0
    else if volume < Live(b.orders[ref]) then volume
    else Live(b.orders[ref])
  }

  /** What a trade takes beyond its own order's claim is free, or nothing else is live. */
  predicate TradeFits(b: Book, ref: nat, id: int, o: Offset, volume: nat)
  {
    volume - Given(b, ref, id, volume) <= Free(b, o) || Given(b, ref, id, volume) == LiveVolume(b, o)
  }

  predicate Fits(b: Book, a: Action)
  {
    match a
    case PlainClose(volume, e, f) => CloseFits(b, volume, e, f)
    case NamedClose(o, volume, e) => SendFits(b, o, volume, e)
    case OrderReturn(ref, status, traded, total) => ReportFits(b, ref, status, traded, total)
    case OrderAdded(x) => Live(x) <= Free(b, x.offset)
    case TradeReturn(ref, id, o, volume) => TradeFits(b, ref, id, o, volume)
    case OpenTrade(_) => true
  }

  lemma SendVolume(amount: Order -> nat, b: Book, o: Offset, volume: nat, e: Outcome, p: Offset)
    requires amount(Order(o, volume, 0, Pending, 0, 0)) == volume
    ensures Volume(amount, Send(b, o, volume, e).orders, p)
      == Volume(amount, b.orders, p) + (if LetIn(b, o, volume, e) && p == o then volume else 0)
  {
    VolumeSnoc(amount, b.orders, Order(o, volume, 0, Pending, 0, 0), p);
  }

  /** An order sent claims its volume of its own kind, and nothing of the other. */
  lemma SendFree(b: Book, o: Offset, volume: nat, e: Outcome, p: Offset)
    ensures Free(Send(b, o, volume, e), p) == Free(b, p) - (if LetIn(b, o, volume, e) && p == o then volume else 0)
    ensures p != o ==> Available(Send(b, o, volume, e), p) == Available(b, p)
  {
    SendVolume(Live, b, o, volume, e, p);
    SendVolume(Remaining, b, o, volume, e, p);
  }

  lemma SendCoveredIff(b: Book, o: Offset, volume: nat, e: Outcome)
    requires Covered(b)
    ensures Covered(Send(b, o, volume, e)) <==> SendFits(b, o, volume, e)
  {
    SendFree(b, o, volume, e, CloseToday);
    SendFree(b, o, volume, e, CloseYesterday);
  }

  /** A plain close, routed in whichever way, keeps live orders covered exactly when the parts let in
      fit the free position of their kinds. */
  lemma CloseCoveredIff(b: Book, volume: nat, e: Outcome, f: Outcome)
    requires Covered(b)
    ensures Covered(Close(b, volume, e, f)) <==> CloseFits(b, volume, e, f)
  {
    match RouteOf(b, volume)
    case Whole(o) => SendCoveredIff(b, o, volume, e);
    case Split(today, yesterday) =>
      var c := Send(b, CloseToday, today, e);
      SendFree(b, CloseToday, today, e, CloseToday);
      SendFree(b, CloseToday, today, e, CloseYesterday);
      SendFree(c, CloseYesterday, yesterday, f, CloseToday);
      SendFree(c, CloseYesterday, yesterday, f, CloseYesterday);
    case Refused =>
  }

  lemma ReportCoveredIff(b: Book, ref: nat, status: Status, traded: nat, total: nat)
    requires Covered(b)
    ensures Covered(Report(b, ref, status, traded, total)) <==> ReportFits(b, ref, status, traded, total)
  {
    if ref < |b.orders| {
      var x := Reported(b.orders[ref], status, traded, total);
      VolumeUpdate(Live, b.orders, ref, x, CloseToday);
      VolumeUpdate(Live, b.orders, ref, x, CloseYesterday);
    }
  }

  /** A trade takes from the claims what its own order still had, up to its volume. */
  lemma TradeLive(b: Book, ref: nat, id: int, o: Offset, volume: nat, p: Offset)
    requires ref < |b.orders| ==> b.orders[ref].offset == o
    ensures LiveVolume(Trade(b, ref, id, o, volume), p) == LiveVolume(b, p) - (if p == o then Given(b, ref, id, volume) else 0)
  {
    if id !in b.seen && ref < |b.orders| {
      VolumeUpdate(Live, b.orders, ref, Filled(b.orders[ref], volume), p);
    }
  }

  lemma TradeCoveredIff(b: Book, ref: nat, id: int, o: Offset, volume: nat)
    requires Covered(b) && volume > 0 && (ref < |b.orders| ==> b.orders[ref].offset == o)
    ensures Covered(Trade(b, ref, id, o, volume)) <==> TradeFits(b, ref, id, o, volume)
  {
    TradeLive(b, ref, id, o, volume, CloseToday);
    TradeLive(b, ref, id, o, volume, CloseYesterday);
  }

  lemma StepCoveredIff(b: Book, a: Action)
    requires Covered(b) && Enabled(b, a)
    ensures Covered(Step(b, a)) <==> Fits(b, a)
  {
    match a
    case PlainClose(volume, e, f) => CloseCoveredIff(b, volume, e, f);
    case NamedClose(o, volume, e) => SendCoveredIff(b, o, volume, e);
    case OrderReturn(ref, status, traded, total) => ReportCoveredIff(b, ref, status, traded, total);
    case OrderAdded(x) =>
      VolumeSnoc(Live, b.orders, x, CloseToday);
      VolumeSnoc(Live, b.orders, x, CloseYesterday);
    case TradeReturn(ref, id, o, volume) => TradeCoveredIff(b, ref, id, o, volume);
    case OpenTrade(_) =>
  }

  // ----- runs -----

  predicate Possible(b: Book, acts: seq<Action>)
    decreases |acts|
  {
    acts == [] || (Enabled(b, acts[0]) && Possible(Step(b, acts[0]), acts[1..]))
  }

  function Run(b: Book, acts: seq<Action>): Book
    requires Possible(b, acts)
    decreases |acts|
  {
    if acts == [] then b else Run(Step(b, acts[0]), acts[1..])
  }

  predicate CoveredThroughout(b: Book, acts: seq<Action>)
    requires Possible(b, acts)
    decreases |acts|
  {
    Covered(b) && (acts == [] || CoveredThroughout(Step(b, acts[0]), acts[1..]))
  }

  predicate AllFit(b: Book, acts: seq<Action>)
    requires Possible(b, acts)
    decreases |acts|
  {
    acts == [] || (Fits(b, acts[0]) && AllFit(Step(b, acts[0]), acts[1..]))
  }

  /** Over any run at all, replays, late trades and revived orders included: live close orders stay
      covered all the way exactly when every step fits as it comes. */
  lemma {:induction false} CoveredThroughoutIff(b: Book, acts: seq<Action>)
    requires Covered(b) && Possible(b, acts)
    ensures CoveredThroughout(b, acts) <==> AllFit(b, acts)
    decreases |acts|
  {
    if acts != [] {
      StepCoveredIff(b, acts[0]);
      if Fits(b, acts[0]) {
        CoveredThroughoutIff(Step(b, acts[0]), acts[1..]);
      } else {
        assert !CoveredThroughout(Step(b, acts[0]), acts[1..]);
      }
    }
  }

  // ----- genuine messages -----

  /** What a sound exchange sends, reports and trades in whatever order: each trade once, for an order
      on the book and within what that has left; reports that leave totals alone, claim no more than
      the total, and neither bring an ended order back to life nor make it trade more. */
  predicate Genuine(b: Book, a: Action)
  {
    match a
    case TradeReturn(ref, id, _, volume) => id !in b.seen && ref < |b.orders| && volume <= Live(b.orders[ref])
    case OrderReturn(ref, status, traded, total) =>
      ref < |b.orders| ==>
        var x := b.orders[ref];
        && traded <= total == x.total
        && (Ended(x) ==> traded <= x.claimed && (status == AllTraded ==> x.settled >= total || x.claimed >= total))
    case _ => true
  }

  predicate AllGenuine(b: Book, acts: seq<Action>)
    requires Possible(b, acts)
    decreases |acts|
  {
    acts == [] || (Genuine(b, acts[0]) && AllGenuine(Step(b, acts[0]), acts[1..]))
  }

  /** A step that brings an order onto the book. */
  predicate Enters(a: Action)
  {
    a.PlainClose? || a.NamedClose? || a.OrderAdded?
  }

  /** Every close let in, and every order taken over, fits into the position no live order claims at
      that time. */
  predicate ClosesFit(b: Book, acts: seq<Action>)
    requires Possible(b, acts)
    decreases |acts|
  {
    acts == [] || ((Enters(acts[0]) ==> Fits(b, acts[0])) && ClosesFit(Step(b, acts[0]), acts[1..]))
  }

  lemma GenuineFits(b: Book, a: Action)
    requires Covered(b) && Enabled(b, a) && Genuine(b, a) && !Enters(a)
    ensures Fits(b, a)
  {}

  /** When messages are genuine, in whatever order reports and trades come: live close orders stay
      covered all the way exactly when each close let in is within the position less what is live. */
  lemma {:induction false} CoveredIffClosesFit(b: Book, acts: seq<Action>)
    requires Covered(b) && Possible(b, acts) && AllGenuine(b, acts)
    ensures CoveredThroughout(b, acts) <==> ClosesFit(b, acts)
    decreases |acts|
  {
    if acts != [] {
      StepCoveredIff(b, acts[0]);
      if !Enters(acts[0]) { GenuineFits(b, acts[0]); }
      if Fits(b, acts[0]) {
        CoveredIffClosesFit(Step(b, acts[0]), acts[1..]);
      } else {
        assert !CoveredThroughout(Step(b, acts[0]), acts[1..]);
      }
    }
  }

  // ----- what the exchange did, whenever it says so -----

  /** How much each order will have traded in the end, by reference. */
  type Fates = nat -> nat

  /** What is known of an order agrees with its fate. */
  predicate OrderAgrees(x: Order, fate: nat)
  {
    x.settled <= fate <= x.total && x.claimed <= fate && (Ended(x) ==> x.claimed == fate)
  }

  predicate Agrees(b: Book, fates: Fates)
  {
    forall i :: 0 <= i < |b.orders| ==> OrderAgrees(b.orders[i], fates(i))
  }

  /** A message that tells of the orders' fates, as early or as late as it likes: each trade once, and
      trades within the fate; a report claims no more than the fate, all of it when it says that the
      order has ended, and that is the total when it says that all is traded. Orders come onto the
      book in agreement with theirs. */
  predicate Faithful(b: Book, a: Action, fates: Fates)
    requires Enabled(b, a)
  {
    match a
    case TradeReturn(ref, id, _, volume) =>
      id !in b.seen && ref < |b.orders| && b.orders[ref].settled + volume <= fates(ref)
    case OrderReturn(ref, status, traded, total) =>
      ref < |b.orders| ==>
        && total == b.orders[ref].total && traded <= fates(ref)
        && (status == Cancelled || status == Error ==> traded == fates(ref))
        && (status == AllTraded ==> total == fates(ref))
    case _ => Agrees(Step(b, a), fates)
  }

  predicate AllFaithful(b: Book, acts: seq<Action>, fates: Fates)
    requires Possible(b, acts)
    decreases |acts|
  {
    acts == [] || (Faithful(b, acts[0], fates) && AllFaithful(Step(b, acts[0]), acts[1..], fates))
  }

  lemma FaithfulStep(b: Book, a: Action, fates: Fates)
    requires Agrees(b, fates) && Enabled(b, a) && Faithful(b, a, fates)
    ensures Genuine(b, a) && Agrees(Step(b, a), fates)
  {}

  /** The hypothesis on messages rests on the exchange alone: whatever order it sends them in, messages
      that tell of what its orders traded are genuine. */
  lemma {:induction false} FaithfulIsGenuine(b: Book, acts: seq<Action>, fates: Fates)
    requires Agrees(b, fates) && Possible(b, acts) && AllFaithful(b, acts, fates)
    ensures AllGenuine(b, acts)
    decreases |acts|
  {
    if acts != [] {
      FaithfulStep(b, acts[0], fates);
      FaithfulIsGenuine(Step(b, acts[0]), acts[1..], fates);
    }
  }

  // ----- reports that do not run ahead -----

  /** A report that claims no more than the trades counted so far; an order taken over comes with the
      right count and fits. */
  predicate Behind(b: Book, a: Action)
  {
    match a
    case OrderReturn(ref, status, traded, _) =>
      ref < |b.orders| ==>
        var x := b.orders[ref];
        traded <= x.settled && (status == AllTraded ==> x.settled >= x.total)
    case OrderAdded(x) => Tallied(x) && Live(x) <= Free(b, x.offset)
    case _ => true
  }

  predicate AllBehind(b: Book, acts: seq<Action>)
    requires Possible(b, acts)
    decreases |acts|
  {
    acts == [] || (Behind(b, acts[0]) && AllBehind(Step(b, acts[0]), acts[1..]))
  }

  /** The engine's count of an order is right. */
  predicate Tallied(o: Order)
  {
    && o.claimed <= o.settled <= o.total
    && (Active(o) ==> o.traded == o.settled)
    && (o.status == AllTraded ==> o.settled == o.total)
  }

  predicate AllTallied(b: Book)
  {
    forall i :: 0 <= i < |b.orders| ==> Tallied(b.orders[i])
  }

  lemma {:induction false} TalliedReserve(orders: seq<Order>, o: Offset)
    requires forall i :: 0 <= i < |orders| ==> Tallied(orders[i])
    ensures Reserved(orders, o) == Volume(Live, orders, o)
    decreases |orders|
  {
    if orders != [] {
      var last := orders[|orders| - 1];
      assert Tallied(last) && Remaining(last) == Live(last);
      TalliedReserve(orders[..|orders| - 1], o);
    }
  }

  /** While the engine's count is right, what it takes to be available is what no live order can claim. */
  lemma AvailableIsFree(b: Book, o: Offset)
    requires AllTallied(b) && Covered(b)
    ensures Available(b, o) == Free(b, o)
  {
    TalliedReserve(b.orders, o);
  }

  lemma StepKeepsTally(b: Book, a: Action)
    requires AllTallied(b) && Enabled(b, a) && Genuine(b, a) && Behind(b, a)
    ensures AllTallied(Step(b, a))
  {}

  /** While the engine's count is right, every close it lets in fits. */
  lemma TalliedFits(b: Book, a: Action)
    requires AllTallied(b) && Covered(b) && Enabled(b, a) && Enters(a) && Behind(b, a)
    ensures Fits(b, a)
  {
    TalliedReserve(b.orders, CloseToday);
    TalliedReserve(b.orders, CloseYesterday);
    if a.PlainClose? { RouteAddsUp(b, a.volume, a.first); }
  }

  /** Over every run of genuine messages in which no report runs ahead of the trades counted, live
      close orders never exceed the position of their kind. */
  lemma {:induction false} NeverOverReserved(b: Book, acts: seq<Action>)
    requires Covered(b) && AllTallied(b) && Possible(b, acts) && AllGenuine(b, acts) && AllBehind(b, acts)
    ensures CoveredThroughout(b, acts)
    decreases |acts|
  {
    if acts != [] {
      if Enters(acts[0]) { TalliedFits(b, acts[0]); } else { GenuineFits(b, acts[0]); }
      StepCoveredIff(b, acts[0]);
      StepKeepsTally(b, acts[0]);
      NeverOverReserved(Step(b, acts[0]), acts[1..]);
    }
  }

  // ----- reports that do -----

  const TAKES := Outcome(true, true)
  const TWO := Order(CloseToday, 2, 2, AllTraded, 1, 1)
  const ONE := Order(CloseToday, 1, 1, AllTraded, 0, 1)
  const NEXT := Order(CloseToday, 1, 0, Pending, 0, 0)
  const CUT := Order(CloseToday, 2, 1, Cancelled, 0, 1)
  const FRESH := Order(CloseToday, 2, 0, Pending, 0, 0)

  lemma VolumeOne(amount: Order -> nat, x: Order, o: Offset)
    ensures Volume(amount, [x], o) == if x.offset == o then amount(x) else 0
  {
    VolumeSnoc(amount, [], x, o);
    assert [] + [x] == [x];
  }

  lemma VolumeTwo(amount: Order -> nat, x: Order, y: Order, o: Offset)
    ensures Volume(amount, [x, y], o) == (if x.offset == o then amount(x) else 0) + (if y.offset == o then amount(y) else 0)
  {
    VolumeOne(amount, x, o);
    VolumeSnoc(amount, [x], y, o);
    assert [x] + [y] == [x, y];
  }

  lemma PossibleMore(b: Book, a: Action, more: seq<Action>)
    requires Enabled(b, a) && Possible(Step(b, a), more)
    ensures Possible(b, [a] + more) && Run(b, [a] + more) == Run(Step(b, a), more)
    ensures Genuine(b, a) && AllGenuine(Step(b, a), more) ==> AllGenuine(b, [a] + more)
  {
    assert ([a] + more)[1..] == more;
  }

  /** The trade of a fill already reported, and one more close. */
  lemma SecondClose(b: Book) returns (acts: seq<Action>)
    requires b == Book(2, 0, [Order(CloseToday, 2, 1, PartTraded, 0, 1)], {})
    ensures acts == [TradeReturn(0, 100, CloseToday, 1), PlainClose(1, TAKES, TAKES)]
    ensures Possible(b, acts) && AllGenuine(b, acts)
    ensures Held(Run(b, acts), CloseToday) == 1 && LiveVolume(Run(b, acts), CloseToday) == 2
  {
    var b1 := Step(b, TradeReturn(0, 100, CloseToday, 1));
    assert b1 == Book(1, 0, [TWO], {100});
    VolumeOne(Remaining, TWO, CloseToday);
    var b2 := Step(b1, PlainClose(1, TAKES, TAKES));
    assert b2 == Book(1, 0, [TWO, NEXT], {100});
    VolumeTwo(Live, TWO, NEXT, CloseToday);
    PossibleMore(b1, PlainClose(1, TAKES, TAKES), []);
    acts := [PlainClose(1, TAKES, TAKES)] + [];
    PossibleMore(b, TradeReturn(0, 100, CloseToday, 1), acts);
    acts := [TradeReturn(0, 100, CloseToday, 1)] + acts;
  }

  /** The report of a part fill ahead of its trade: the fill counts twice against the order, whose
      second lot is taken for traded. A further close is let in, and two live lots stand against a
      position of one. */
  lemma PartReportOverReserves() returns (acts: seq<Action>)
    ensures acts == [PlainClose(2, TAKES, TAKES), OrderReturn(0, PartTraded, 1, 2), TradeReturn(0, 100, CloseToday, 1), PlainClose(1, TAKES, TAKES)]
    ensures var b := Book(2, 0, [], {});
      Covered(b) && Possible(b, acts) && AllGenuine(b, acts)
      && Held(Run(b, acts), CloseToday) == 1 && LiveVolume(Run(b, acts), CloseToday) == 2
  {
    var b0 := Book(2, 0, [], {});
    var b1 := Step(b0, PlainClose(2, TAKES, TAKES));
    assert b1 == Book(2, 0, [FRESH], {});
    var b2 := Step(b1, OrderReturn(0, PartTraded, 1, 2));
    assert b2 == Book(2, 0, [Order(CloseToday, 2, 1, PartTraded, 0, 1)], {});
    acts := SecondClose(b2);
    PossibleMore(b1, OrderReturn(0, PartTraded, 1, 2), acts);
    acts := [OrderReturn(0, PartTraded, 1, 2)] + acts;
    PossibleMore(b0, PlainClose(2, TAKES, TAKES), acts);
    acts := [PlainClose(2, TAKES, TAKES)] + acts;
  }

  /** The report of a full fill ahead of its trade: the order counts as done while the position still
      holds its lot, and a second close is let in on the same lot. */
  lemma FullReportOverReserves() returns (acts: seq<Action>)
    ensures acts == [PlainClose(1, TAKES, TAKES), OrderReturn(0, AllTraded, 1, 1), PlainClose(1, TAKES, TAKES)]
    ensures var b := Book(1, 0, [], {});
      Covered(b) && Possible(b, acts) && AllGenuine(b, acts)
      && Held(Run(b, acts), CloseToday) == 1 && LiveVolume(Run(b, acts), CloseToday) == 2
  {
    var b0 := Book(1, 0, [], {});
    var b1 := Step(b0, PlainClose(1, TAKES, TAKES));
    assert b1 == Book(1, 0, [NEXT], {});
    var b2 := Step(b1, OrderReturn(0, AllTraded, 1, 1));
    assert b2 == Book(1, 0, [ONE], {});
    VolumeOne(Remaining, ONE, CloseToday);
    var b3 := Step(b2, PlainClose(1, TAKES, TAKES));
    assert b3 == Book(1, 0, [ONE, NEXT], {});
    VolumeTwo(Live, ONE, NEXT, CloseToday);
    PossibleMore(b2, PlainClose(1, TAKES, TAKES), []);
    acts := [PlainClose(1, TAKES, TAKES)] + [];
    PossibleMore(b1, OrderReturn(0, AllTraded, 1, 1), acts);
    acts := [OrderReturn(0, AllTraded, 1, 1)] + acts;
    PossibleMore(b0, PlainClose(1, TAKES, TAKES), acts);
    acts := [PlainClose(1, TAKES, TAKES)] + acts;
  }

  /** The report of a part-filled order's cancellation ahead of its trade, as an order that fills what it
      can and cancels the rest ends: the order counts as done, and a close of the whole position is
      let in before the trade has taken its lot. */
  lemma CancelReportOverReserves() returns (acts: seq<Action>)
    ensures acts == [PlainClose(2, TAKES, TAKES), OrderReturn(0, Cancelled, 1, 2), PlainClose(2, TAKES, TAKES), TradeReturn(0, 100, CloseToday, 1)]
    ensures var b := Book(2, 0, [], {});
      Covered(b) && Possible(b, acts) && AllGenuine(b, acts)
      && Held(Run(b, acts), CloseToday) == 1 && LiveVolume(Run(b, acts), CloseToday) == 2
  {
    var b0 := Book(2, 0, [], {});
    var b1 := Step(b0, PlainClose(2, TAKES, TAKES));
    assert b1 == Book(2, 0, [FRESH], {});
    var b2 := Step(b1, OrderReturn(0, Cancelled, 1, 2));
    assert b2 == Book(2, 0, [CUT], {});
    acts := LateTrade(b2);
    PossibleMore(b1, OrderReturn(0, Cancelled, 1, 2), acts);
    acts := [OrderReturn(0, Cancelled, 1, 2)] + acts;
    PossibleMore(b0, PlainClose(2, TAKES, TAKES), acts);
    acts := [PlainClose(2, TAKES, TAKES)] + acts;
  }

  lemma LateTrade(b: Book) returns (acts: seq<Action>)
    requires b == Book(2, 0, [CUT], {})
    ensures acts == [PlainClose(2, TAKES, TAKES), TradeReturn(0, 100, CloseToday, 1)]
    ensures Possible(b, acts) && AllGenuine(b, acts)
    ensures Held(Run(b, acts), CloseToday) == 1 && LiveVolume(Run(b, acts), CloseToday) == 2
  {
    VolumeOne(Remaining, CUT, CloseToday);
    var b1 := Step(b, PlainClose(2, TAKES, TAKES));
    assert b1 == Book(2, 0, [CUT, FRESH], {});
    var b2 := Step(b1, TradeReturn(0, 100, CloseToday, 1));
    assert b2 == Book(1, 0, [Filled(CUT, 1), FRESH], {100});
    VolumeTwo(Live, Filled(CUT, 1), FRESH, CloseToday);
    PossibleMore(b1, TradeReturn(0, 100, CloseToday, 1), []);
    acts := [TradeReturn(0, 100, CloseToday, 1)] + [];
    PossibleMore(b, PlainClose(2, TAKES, TAKES), acts);
    acts := [PlainClose(2, TAKES, TAKES)] + acts;
  }

  /** Why each trade is asked to come once: the orders know a replayed trade, the position does not, and
      closes a lot again that another order is about to close. Every close fitted when it was let in. */
  lemma ReplayUncovers(b: Book) returns (acts: seq<Action>)
    requires b == Book(1, 0, [Order(CloseToday, 1, 1, AllTraded, 1, 0), NEXT], {100})
    ensures acts == [TradeReturn(0, 100, CloseToday, 1)] && Possible(b, acts)
    ensures Covered(b) && AllTallied(b) && ClosesFit(b, acts) && !Genuine(b, acts[0])
    ensures Held(Run(b, acts), CloseToday) == 0 && LiveVolume(Run(b, acts), CloseToday) == 1
  {
    var done := Order(CloseToday, 1, 1, AllTraded, 1, 0);
    VolumeTwo(Live, done, NEXT, CloseToday);
    VolumeTwo(Live, done, NEXT, CloseYesterday);
    PossibleMore(b, TradeReturn(0, 100, CloseToday, 1), []);
    acts := [TradeReturn(0, 100, CloseToday, 1)] + [];
  }

  // ----- the position over runs -----

  /** Only trades move the position: an opening trade raises today's, a closing trade lowers its own
      kind, never below zero. */
  lemma PositionMoves(b: Book, a: Action, o: Offset)
    requires Enabled(b, a)
    ensures Held(Step(b, a), o) - Held(b, o) ==
      match a
      case OpenTrade(volume) => if o == CloseToday then volume else 0
      case TradeReturn(_, _, p, volume) => if o != p then 0 else if volume <= Held(b, o) then -(volume as int) else -(Held(b, o) as int)
      case _ => 0
  {}

  /** What a step opens, less what it closes, of one kind. */
  function Change(a: Action, o: Offset): int
  {
    match a
    case OpenTrade(volume) => if o == CloseToday then volume else 0
    case TradeReturn(_, _, p, volume) => if o == p then -(volume as int) else 0
    case _ => 0
  }

  function Changes(acts: seq<Action>, o: Offset): int
    decreases |acts|
  {
    if acts == [] then 0 else Change(acts[0], o) + Changes(acts[1..], o)
  }

  lemma {:induction false} LiveIsWithin(orders: seq<Order>, ref: nat)
    requires ref < |orders|
    ensures Live(orders[ref]) <= Volume(Live, orders, orders[ref].offset)
    decreases |orders|
  {
    if ref < |orders| - 1 { LiveIsWithin(orders[..|orders| - 1], ref); }
  }

  /** While live orders stay covered, genuine trades close only what is held: the position ends as it
      began plus all that was opened less all that was closed. */
  lemma {:induction false} PositionAddsUp(b: Book, acts: seq<Action>, o: Offset)
    requires Possible(b, acts) && AllGenuine(b, acts) && CoveredThroughout(b, acts)
    ensures Held(Run(b, acts), o) == Held(b, o) + Changes(acts, o)
    decreases |acts|
  {
    if acts != [] {
      var a := acts[0];
      if a.TradeReturn? { LiveIsWithin(b.orders, a.ref); }
      PositionMoves(b, a, o);
      PositionAddsUp(Step(b, a), acts[1..], o);
    }
  }

  // ----- how orders end -----

  /** Whatever comes, an order that has ended stays ended, but for one case: a trade on an order that a
      report called all traded while its count, trade included, is still short of its total. */
  lemma EndStaysIff(b: Book, a: Action, i: nat)
    requires Enabled(b, a) && i < |b.orders| && Terminal(b.orders[i].status)
    ensures i < |Step(b, a).orders|
    ensures Terminal(Step(b, a).orders[i].status) <==>
      !(a.TradeReturn? && a.ref == i && a.id !in b.seen && b.orders[i].status == AllTraded
        && b.orders[i].traded + a.volume < b.orders[i].total)
  {}

  // ----- routing -----

  /** Today's position goes first: a close that fits it is sent against it in full, and a close is sent
      against yesterday's position only beyond what today's has available. */
  lemma TodayGoesFirst(b: Book, volume: nat, e: Outcome, f: Outcome)
    requires volume > 0
    ensures volume <= Available(b, CloseToday) ==> Close(b, volume, e, f) == Send(b, CloseToday, volume, e)
    ensures Available(b, CloseToday) < volume <= Available(b, CloseYesterday) ==>
      Close(b, volume, e, f) == Send(b, CloseYesterday, volume, e)
    ensures b.orders <= Close(b, volume, e, f).orders
    ensures forall k :: |b.orders| <= k < |Close(b, volume, e, f).orders| ==>
      Placed(b, volume, Close(b, volume, e, f).orders[k], k - |b.orders|, |Close(b, volume, e, f).orders| - |b.orders|)
  {}

  /** An order x that a close of the given volume put on the book at place k of n: either it is for the
      whole volume and alone, or it is one of two parts, today's part being all that is available. */
  predicate Placed(b: Book, volume: nat, x: Order, k: nat, n: nat)
  {
    && (x.offset == CloseYesterday ==> volume > Available(b, CloseToday))
    && (x.total == volume ==> n == 1)
    && (x.total != volume ==>
          && volume > Available(b, CloseToday) && volume > Available(b, CloseYesterday)
          && x.total == (if x.offset == CloseToday then Available(b, CloseToday) else volume - Available(b, CloseToday))
          && (n == 2 ==> (x.offset == CloseToday <==> k == 0)))
  }

  function AllReserved(b: Book): nat
  {
    Reserved(b.orders, CloseToday) + Reserved(b.orders, CloseYesterday)
  }

  lemma SendReserves(b: Book, o: Offset, volume: nat, e: Outcome)
    requires LetIn(b, o, volume, e)
    ensures AllReserved(Send(b, o, volume, e)) == AllReserved(b) + volume
  {
    SendVolume(Remaining, b, o, volume, e, CloseToday);
    SendVolume(Remaining, b, o, volume, e, CloseYesterday);
  }

  /** A close within what is available raises the reserved volume by just its own, over both kinds; one
      beyond it changes nothing. */
  lemma CloseReserves(b: Book, volume: nat, e: Outcome, f: Outcome)
    requires volume > 0 && e.riskPasses && f.riskPasses
    ensures if volume <= Available(b, CloseToday) + Available(b, CloseYesterday)
      then AllReserved(Close(b, volume, e, f)) == AllReserved(b) + volume
      else Close(b, volume, e, f) == b
  {
    RouteAddsUp(b, volume, e);
    match RouteOf(b, volume)
    case Whole(o) => SendReserves(b, o, volume, e);
    case Split(today, yesterday) =>
      SendReserves(b, CloseToday, today, e);
      SendReserves(Send(b, CloseToday, today, e), CloseYesterday, yesterday, f);
    case Refused =>
  }

  /** A close that is not refused is routed in full: the parts add up to the volume, none is empty,
      each fits what is available of its kind, and the two parts of a split do not get in each
      other's way. */
  lemma RouteAddsUp(b: Book, volume: nat, e: Outcome)
    requires volume > 0
    ensures match RouteOf(b, volume)
      case Whole(o) => volume <= Available(b, o)
      case Split(today, yesterday) =>
        (today + yesterday == volume && today > 0 && yesterday > 0 && today <= Available(b, CloseToday)
         && yesterday <= Available(Send(b, CloseToday, today, e), CloseYesterday))
      case Refused =>
        (volume > Available(b, CloseToday) && volume > Available(b, CloseYesterday)
         && (volume > Available(b, CloseToday) + Available(b, CloseYesterday)
             || Available(b, CloseToday) == 0 || Available(b, CloseYesterday) == 0))
  {
    if RouteOf(b, volume).Split? {
      SendFree(b, CloseToday, RouteOf(b, volume).today, e, CloseYesterday);
    }
  }

  /** Refused means more than all that is available; a close is never refused for being spread. */
  lemma RefusedMeansTooMuch(b: Book, volume: nat)
    requires volume > 0
    ensures RouteOf(b, volume) == Refused <==> volume > Available(b, CloseToday) + Available(b, CloseYesterday)
  {}

  // ----- the engine's side -----

  /** A request: a plain close, or one that names what it closes. */
  datatype Request = Plain | Named(offset: Offset)

  const NONE := -1

  /** The reference a split hands back: its first order's, or the one that did get through. */
  function SplitRef(first: int, second: int): int
  {
    if first == NONE then second else first
  }

  /** The reference of an order that got through. */
  function RefOf(b: Book, o: Offset, volume: nat, e: Outcome): int
  {
    if Taken(b, o, volume, e) then |b.orders| else NONE
  }

  function CloseRef(b: Book, volume: nat, e: Outcome, f: Outcome): int
  {
    match RouteOf(b, volume)
    case Whole(o) => RefOf(b, o, volume, e)
    case Split(today, yesterday) =>
      SplitRef(RefOf(b, CloseToday, today, e), RefOf(Send(b, CloseToday, today, e), CloseYesterday, yesterday, f))
    case Refused => NONE
  }

  predicate Passes(e: Outcome)
  {
    e.riskPasses && e.gatewayTakes
  }

  /** The closes that get no reference: more than all that is available, or none of their orders got
      through. */
  predicate Nameless(b: Book, volume: nat, e: Outcome, f: Outcome)
  {
    var today, yesterday := Available(b, CloseToday), Available(b, CloseYesterday);
    volume > today + yesterday || (!Passes(e) && (volume > today && volume > yesterday ==> !Passes(f)))
  }

  /** A reference names an order this close put on the book, untouched so far: the only one, or of two
      parts the first that got through; and a close gets none only if none did. */
  lemma CloseRefNames(b: Book, volume: nat, e: Outcome, f: Outcome)
    requires volume > 0
    ensures CloseRef(b, volume, e, f) == NONE <==> Nameless(b, volume, e, f)
    ensures var after, ref := Close(b, volume, e, f), CloseRef(b, volume, e, f);
      ref != NONE ==>
        && |b.orders| <= ref < |after.orders|
        && after.orders[ref].traded == 0 && after.orders[ref].status == Pending
        && after.orders[ref].total ==
             (if volume <= Available(b, CloseToday) || volume <= Available(b, CloseYesterday) then volume
              else if Passes(e) then Available(b, CloseToday)
              else volume - Available(b, CloseToday))
  {
    RouteAddsUp(b, volume, e);
  }

  class Engine {
    var today: nat
    var yesterday: nat
    var orders: seq<Order>
    var seen: set<int>

    function Value(): Book
      reads this
    {
      Book(today, yesterday, orders, seen)
    }

    constructor (today: nat, yesterday: nat)
      ensures Value() == Book(today, yesterday, [], {}) && Covered(Value()) && AllTallied(Value())
    {
      this.today, this.yesterday, orders, seen := today, yesterday, [], {};
    }

    method PendingVolume(o: Offset) returns (pending: nat)
      ensures pending == Reserved(orders, o)
    {
      pending := 0;
      var i := 0;
      while i < |orders|
        invariant 0 <= i <= |orders| && pending == Reserved(orders[..i], o)
      {
        assert orders[..i + 1] == orders[..i] + [orders[i]];
        VolumeSnoc(Remaining, orders[..i], orders[i], o);
        if orders[i].offset == o { pending := pending + Remaining(orders[i]); }
        i := i + 1;
      }
      assert orders[..i] == orders;
    }

    /** Send one order past the risk check: the reference, or none when it did not get through. */
    method Submit(o: Offset, volume: nat, e: Outcome) returns (ref: int)
      modifies this`orders
      ensures Value() == Send(old(Value()), o, volume, e)
      ensures ref == RefOf(old(Value()), o, volume, e)
    {
      var reserved := PendingVolume(o);
      var held := if o == CloseToday then today else yesterday;
      var available := if held > reserved then held - reserved else 0;
      if volume > available || !e.riskPasses { return NONE; }
      ref := |orders|;
      orders := orders + [Order(o, volume, 0, Pending, 0, 0)];
      if !e.gatewayTakes { ref := NONE; }
    }

    /** A close request. Only a plain one is routed, so that the two halves of a split go out as they
        are and the recursion ends after one level. */
    method SendClose(request: Request, volume: nat, e: Outcome, f: Outcome) returns (ref: int)
      modifies this`orders
      ensures Value() == if request.Plain? then Close(old(Value()), volume, e, f)
                         else Send(old(Value()), request.offset, volume, e)
      ensures ref == if request.Plain? then CloseRef(old(Value()), volume, e, f)
                     else RefOf(old(Value()), request.offset, volume, e)
      decreases request.Plain?, 1
    {
      if request.Plain? {
        ref := RouteClose(volume, e, f);
      } else {
        ref := Submit(request.offset, volume, e);
      }
    }

    method RouteClose(volume: nat, e: Outcome, f: Outcome) returns (ref: int)
      modifies this`orders
      ensures Value() == Close(old(Value()), volume, e, f) && ref == CloseRef(old(Value()), volume, e, f)
      decreases true, 0
    {
      var reservedToday := PendingVolume(CloseToday);
      var reservedYesterday := PendingVolume(CloseYesterday);
      var availableToday := if today > reservedToday then today - reservedToday else 0;
      var availableYesterday := if yesterday > reservedYesterday then yesterday - reservedYesterday else 0;
      if volume <= availableToday {
        ref := Submit(CloseToday, volume, e);
      } else if volume <= availableYesterday {
        ref := Submit(CloseYesterday, volume, e);
      } else if volume <= availableToday + availableYesterday && availableToday > 0 && availableYesterday > 0 {
        var first := SendClose(Named(CloseToday), availableToday, e, e);
        var second := SendClose(Named(CloseYesterday), volume - availableToday, f, f);
        ref := SplitRef(first, second);
      } else {
        ref := NONE;
      }
    }

    /** A report: an order on the book is updated, one of this session that is not on it is taken over
        (it gets the next place), and one of another session is ignored. */
    method OnOrderReturn(ref: nat, status: Status, traded: nat, total: nat, ownSession: bool, offset: Offset, settled: nat)
      modifies this`orders
      ensures Value() ==
        if ref < |old(orders)| then Report(old(Value()), ref, status, traded, total)
        else if ownSession then Added(old(Value()), Order(offset, total, traded, status, settled, traded))
        else old(Value())
    {
      if ref < |orders| {
        var o := orders[ref];
        if Terminal(o.status) && !Terminal(status) { return; }
        orders := orders[ref := Order(o.offset, total, if o.traded < traded then traded else o.traded, status,
                                      o.settled, if o.claimed < traded then traded else o.claimed)];
      } else if ownSession {
        orders := orders + [Order(offset, total, traded, status, settled, traded)];
      }
    }

    /** A trade goes to the orders first, then to the position. */
    method OnTradeReturn(ref: nat, id: int, o: Offset, volume: nat)
      modifies this
      ensures Value() == Trade(old(Value()), ref, id, o, volume)
    {
      if id !in seen && ref < |orders| {
        var x := orders[ref];
        var traded := x.traded + volume;
        if traded > x.total { traded := x.total; }
        var status := x.status;
        if status != Cancelled && status != Error {
          status := if traded >= x.total then AllTraded else PartTraded;
        }
        orders := orders[ref := Order(x.offset, x.total, traded, status, x.settled + volume, x.claimed)];
      }
      seen := seen + {id};
      if o == CloseToday {
        today := if today < volume then 0 else today - volume;
      } else {
        yesterday := if yesterday < volume then 0 else yesterday - volume;
      }
    }
  }
}
