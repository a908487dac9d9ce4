/** The single-producer single-consumer ring (SPSCQueue, and ShmQueue which runs the same
    protocol over a shared header), as a machine whose steps are the individual loads and
    stores of push and pop, and as the class those steps make up. */
module SpscQueue {
  import opened Int64
  import opened Options
  import opened Words

  // ----- the reference: a bounded first-in first-out queue -----

  /** What a caller can observe: the outcome of each completed push and pop. */
  datatype Event<T> = Accepted(item: T) | Refused(item: T) | Taken(item: T) | FoundEmpty

  /** The content of a FIFO of the given capacity after one more event; None if a FIFO
      could not have behaved that way. */
  function FifoStep<T(==)>(q: seq<T>, e: Event<T>, capacity: nat): Option<seq<T>>
  {
    match e
    case Accepted(x) => if |q| < capacity then Some(q + [x]) else None
    case Refused(_) => if |q| == capacity then Some(q) else None
    case Taken(x) => if |q| > 0 && q[0] == x then Some(q[1..]) else None
    case FoundEmpty => if q == [] then Some(q) else None
  }

  function FifoRun<T(==)>(history: seq<Event<T>>, capacity: nat): Option<seq<T>>
  {
    if history == [] then Some([])
    else
      match FifoRun(history[..|history| - 1], capacity)
      case None => None
      case Some(q) => FifoStep(q, history[|history| - 1], capacity)
  }

  function Accepts<T>(history: seq<Event<T>>): nat
  {
    if history == [] then 0
    else Accepts(history[..|history| - 1]) + if history[|history| - 1].Accepted? then 1 else 0
  }

  function Takes<T>(history: seq<Event<T>>): nat
  {
    if history == [] then 0
    else Takes(history[..|history| - 1]) + if history[|history| - 1].Taken? then 1 else 0
  }

  function Refusals<T>(history: seq<Event<T>>): nat
  {
    if history == [] then 0
    else Refusals(history[..|history| - 1]) + if history[|history| - 1].Refused? then 1 else 0
  }

  // ----- the machine -----

  /** Where the producer is inside push, with the values it holds in registers. */
  datatype Producer<T> =
    | PushIdle
    | HeadLoaded(item: T, h: nat)
    | RoomSeen(item: T, h: nat, next: nat)
    | ItemStored(item: T, h: nat, next: nat)

  /** Where the consumer is inside pop. */
  datatype Consumer<T> =
    | PopIdle
    | TailLoaded(t: nat)
    | ItemSeen(t: nat)
    | ItemCopied(t: nat, item: T)

  datatype Ring<T> = Ring(
    head: nat, tail: nat, buf: seq<T>, drops: nat,
    producer: Producer<T>, consumer: Consumer<T>,
    history: seq<Event<T>>)

  datatype Action<T> =
    | PushLoadHead(x: T) | PushCheck | PushStore | PushPublish
    | PopLoadTail | PopCheck | PopCopy | PopPublish

  predicate Enabled<T>(s: Ring<T>, a: Action<T>)
  {
    match a
    case PushLoadHead(_) => s.producer.PushIdle?
    case PushCheck => s.producer.HeadLoaded?
    case PushStore => s.producer.RoomSeen? && s.producer.h < |s.buf|
    case PushPublish => s.producer.ItemStored?
    case PopLoadTail => s.consumer.PopIdle?
    case PopCheck => s.consumer.TailLoaded?
    case PopCopy => s.consumer.ItemSeen? && s.consumer.t < |s.buf|
    case PopPublish => s.consumer.ItemCopied?
  }

  /** One atomic step on a ring of 2^k slots. */
  function Step<T>(k: nat, s: Ring<T>, a: Action<T>): Ring<T>
    requires Enabled(s, a)
  {
    var mask := Pow2(k) - 1;
    match a
    case PushLoadHead(x) => s.(producer := HeadLoaded(x, s.head))
    case PushCheck =>
      var next := And(s.producer.h + 1, mask);
      if next == s.tail then
        s.(producer := PushIdle, drops := s.drops + 1, history := s.history + [Refused(s.producer.item)])
      else
        s.(producer := RoomSeen(s.producer.item, s.producer.h, next))
    case PushStore =>
      s.(buf := s.buf[s.producer.h := s.producer.item],
         producer := ItemStored(s.producer.item, s.producer.h, s.producer.next))
    case PushPublish =>
      s.(head := s.producer.next, producer := PushIdle, history := s.history + [Accepted(s.producer.item)])
    case PopLoadTail => s.(consumer := TailLoaded(s.tail))
    case PopCheck =>
      if s.consumer.t == s.head then
        s.(consumer := PopIdle, history := s.history + [FoundEmpty])
      else
        s.(consumer := ItemSeen(s.consumer.t))
    case PopCopy => s.(consumer := ItemCopied(s.consumer.t, s.buf[s.consumer.t]))
    case PopPublish =>
      s.(tail := And(s.consumer.t + 1, mask), consumer := PopIdle,
         history := s.history + [Taken(s.consumer.item)])
  }

  predicate Legal<T>(k: nat, s: Ring<T>, acts: seq<Action<T>>)
    decreases |acts|
  {
    acts == [] || (Enabled(s, acts[0]) && Legal(k, Step(k, s, acts[0]), acts[1..]))
  }

  /** The state after any interleaving of producer and consumer steps. */
  function Run<T>(k: nat, s: Ring<T>, acts: seq<Action<T>>): Ring<T>
    requires Legal(k, s, acts)
    decreases |acts|
  {
    if acts == [] then s else Run(k, Step(k, s, acts[0]), acts[1..])
  }

  ghost predicate Init<T>(k: nat, s: Ring<T>)
  {
    && |s.buf| == Pow2(k) && s.head == 0 && s.tail == 0 && s.drops == 0
    && s.producer == PushIdle && s.consumer == PopIdle && s.history == []
  }

  // ----- the invariant -----

  ghost predicate Holds<T>(buf: seq<T>, first: nat, q: seq<T>)
    requires |buf| > 0
  {
    forall i: nat :: i < |q| ==> buf[Slot(first + i, |buf|)] == q[i]
  }

  /** The ring holds queue content q. */
  ghost predicate Represents<T>(k: nat, s: Ring<T>, q: seq<T>)
  {
    var n := Pow2(k);
    var a, p := Accepts(s.history), Takes(s.history);
    && |s.buf| == n
    && FifoRun(s.history, n - 1) == Some(q)
    && a == p + |q| && |q| < n
    && s.head == Slot(a, n) && s.tail == Slot(p, n)
    && Holds(s.buf, p, q)
    && s.drops == Refusals(s.history)
  }

  ghost predicate ProducerOk<T>(k: nat, s: Ring<T>, q: seq<T>)
  {
    var n, a := Pow2(k), Accepts(s.history);
    match s.producer
    case PushIdle => true
    case HeadLoaded(_, h) => h == s.head
    case RoomSeen(_, h, next) => h == s.head && next == Slot(a + 1, n) && |q| < n - 1
    case ItemStored(x, h, next) =>
      h == s.head && next == Slot(a + 1, n) && |q| < n - 1 && h < |s.buf| && s.buf[h] == x
  }

  ghost predicate ConsumerOk<T>(s: Ring<T>, q: seq<T>)
  {
    match s.consumer
    case PopIdle => true
    case TailLoaded(t) => t == s.tail
    case ItemSeen(t) => t == s.tail && |q| > 0
    case ItemCopied(t, x) => t == s.tail && |q| > 0 && x == q[0]
  }

  ghost predicate Consistent<T>(k: nat, s: Ring<T>)
  {
    var r := FifoRun(s.history, Pow2(k) - 1);
    r.Some? && Represents(k, s, r.value) && ProducerOk(k, s, r.value) && ConsumerOk(s, r.value)
  }

  /** What a ring that keeps the invariant holds. */
  ghost function Content<T>(k: nat, s: Ring<T>): Option<seq<T>>
  {
    if Consistent(k, s) then FifoRun(s.history, Pow2(k) - 1) else None
  }

  ghost predicate Inv<T>(k: nat, s: Ring<T>)
  {
    Content(k, s).Some?
  }

  lemma HistoryStep<T>(h: seq<Event<T>>, e: Event<T>, capacity: nat)
    requires FifoRun(h, capacity).Some?
    ensures FifoRun(h + [e], capacity) == FifoStep(FifoRun(h, capacity).value, e, capacity)
    ensures Accepts(h + [e]) == Accepts(h) + if e.Accepted? then 1 else 0
    ensures Takes(h + [e]) == Takes(h) + if e.Taken? then 1 else 0
    ensures Refusals(h + [e]) == Refusals(h) + if e.Refused? then 1 else 0
  {
    assert (h + [e])[..|h + [e]| - 1] == h;
  }

  /** next == tail means exactly that the queue is full. */
  lemma FullTest(n: nat, a: nat, p: nat)
    requires n > 0 && p <= a < p + n
    ensures Slot(a + 1, n) == Slot(p, n) <==> a - p == n - 1
  {
    if a - p == n - 1 {
      assert Slot(p + n, n) == Slot(p, n);
    } else if Slot(a + 1, n) == Slot(p, n) {
      SameSlot(p, a + 1, n);
    }
  }

  /** Writing the free slot leaves every queued item in place. */
  lemma StoreKeeps<T>(buf: seq<T>, p: nat, q: seq<T>, x: T)
    requires |buf| > 0 && |q| < |buf| - 1 && Holds(buf, p, q)
    ensures Holds(buf[Slot(p + |q|, |buf|) := x], p, q)
  {
    var j := Slot(p + |q|, |buf|);
    forall i: nat | i < |q| ensures buf[j := x][Slot(p + i, |buf|)] == q[i] {
      if Slot(p + i, |buf|) == j {
        SameSlot(p + i, p + |q|, |buf|);
      }
    }
  }

  lemma HoldsMore<T>(buf: seq<T>, p: nat, q: seq<T>, x: T)
    requires |buf| > 0 && Holds(buf, p, q) && buf[Slot(p + |q|, |buf|)] == x
    ensures Holds(buf, p, q + [x])
  {}

  lemma DropFirst<T>(buf: seq<T>, p: nat, q: seq<T>)
    requires |buf| > 0 && |q| > 0 && Holds(buf, p, q)
    ensures Holds(buf, p + 1, q[1..])
  {
    forall i: nat | i < |q[1..]| ensures buf[Slot(p + 1 + i, |buf|)] == q[1..][i] {
      assert p + 1 + i == p + (i + 1);
    }
  }

  /** The item at the head index joins the queue when the next head is published. */
  lemma PublishHead<T>(k: nat, s: Ring<T>, q: seq<T>, x: T)
    requires Represents(k, s, q) && |q| < Pow2(k) - 1 && s.buf[s.head] == x
    ensures Represents(k, s.(head := Slot(Accepts(s.history) + 1, Pow2(k)), history := s.history + [Accepted(x)]), q + [x])
  {
    HistoryStep(s.history, Accepted(x), Pow2(k) - 1);
    HoldsMore(s.buf, Takes(s.history), q, x);
  }

  /** The first item leaves the queue when the next tail is published. */
  lemma PublishTail<T>(k: nat, s: Ring<T>, q: seq<T>)
    requires Represents(k, s, q) && |q| > 0
    ensures s.buf[s.tail] == q[0]
    ensures Represents(k, s.(tail := Slot(Takes(s.history) + 1, Pow2(k)), history := s.history + [Taken(q[0])]), q[1..])
  {
    var p := Takes(s.history);
    assert s.buf[Slot(p + 0, Pow2(k))] == q[0];
    HistoryStep(s.history, Taken(q[0]), Pow2(k) - 1);
    DropFirst(s.buf, p, q);
  }

  /** Neither a refused push nor a pop that finds nothing changes the content. */
  lemma RefusedNoted<T>(k: nat, s: Ring<T>, q: seq<T>, x: T)
    requires Represents(k, s, q) && |q| == Pow2(k) - 1
    ensures Represents(k, s.(drops := s.drops + 1, history := s.history + [Refused(x)]), q)
  {
    HistoryStep(s.history, Refused(x), Pow2(k) - 1);
  }

  lemma EmptyNoted<T>(k: nat, s: Ring<T>, q: seq<T>)
    requires Represents(k, s, q) && q == []
    ensures Represents(k, s.(history := s.history + [FoundEmpty]), q)
  {
    HistoryStep<T>(s.history, FoundEmpty, Pow2(k) - 1);
  }

  /** The threads' registers are no part of what the ring holds. */
  lemma Settled<T>(k: nat, s: Ring<T>, t: Ring<T>, q: seq<T>)
    requires Represents(k, s, q) && t == s.(producer := t.producer, consumer := t.consumer)
    requires ProducerOk(k, t, q) && ConsumerOk(t, q)
    ensures Inv(k, t)
  {}

  lemma PushCheckKeepsInv<T>(k: nat, s: Ring<T>)
    requires Inv(k, s) && s.producer.HeadLoaded?
    ensures Inv(k, Step(k, s, PushCheck))
  {
    MaskedNext(Accepts(s.history), k);
    if And(s.producer.h + 1, Pow2(k) - 1) == s.tail {
      CheckRefuses(k, s, Step(k, s, PushCheck), s.producer.item);
    } else {
      CheckFindsRoom(k, s, Step(k, s, PushCheck), s.producer.item);
    }
  }

  lemma CheckRefuses<T>(k: nat, s: Ring<T>, t: Ring<T>, x: T)
    requires Inv(k, s) && Slot(Accepts(s.history) + 1, Pow2(k)) == s.tail
    requires t == s.(producer := PushIdle, drops := s.drops + 1, history := s.history + [Refused(x)])
    ensures Inv(k, t)
  {
    var q := Content(k, s).value;
    FullTest(Pow2(k), Accepts(s.history), Takes(s.history));
    RefusedNoted(k, s, q, x);
    Settled(k, t.(producer := s.producer), t, q);
  }

  lemma CheckFindsRoom<T>(k: nat, s: Ring<T>, t: Ring<T>, x: T)
    requires Inv(k, s) && Slot(Accepts(s.history) + 1, Pow2(k)) != s.tail
    requires t == s.(producer := RoomSeen(x, s.head, Slot(Accepts(s.history) + 1, Pow2(k))))
    ensures Inv(k, t)
  {
    FullTest(Pow2(k), Accepts(s.history), Takes(s.history));
    Settled(k, s, t, Content(k, s).value);
  }

  lemma PushStoreKeepsInv<T>(k: nat, s: Ring<T>)
    requires Inv(k, s) && s.producer.RoomSeen?
    ensures s.producer.h < |s.buf| && Inv(k, Step(k, s, PushStore))
  {
    var q := Content(k, s).value;
    StoreKeeps(s.buf, Takes(s.history), q, s.producer.item);
  }

  lemma PushPublishKeepsInv<T>(k: nat, s: Ring<T>)
    requires Inv(k, s) && s.producer.ItemStored?
    ensures Inv(k, Step(k, s, PushPublish))
  {
    PublishHead(k, s, Content(k, s).value, s.producer.item);
  }

  lemma PopCheckKeepsInv<T>(k: nat, s: Ring<T>)
    requires Inv(k, s) && s.consumer.TailLoaded?
    ensures Inv(k, Step(k, s, PopCheck))
  {
    var q := Content(k, s).value;
    if s.head == s.tail {
      SameSlot(Takes(s.history), Accepts(s.history), Pow2(k));
      EmptyNoted(k, s, q);
      Settled(k, s.(history := s.history + [FoundEmpty]), Step(k, s, PopCheck), q);
    } else {
      Settled(k, s, Step(k, s, PopCheck), q);
    }
  }

  lemma PopCopyKeepsInv<T>(k: nat, s: Ring<T>)
    requires Inv(k, s) && s.consumer.ItemSeen?
    ensures s.consumer.t < |s.buf| && Inv(k, Step(k, s, PopCopy))
  {
    PublishTail(k, s, Content(k, s).value);
  }

  lemma PopPublishKeepsInv<T>(k: nat, s: Ring<T>)
    requires Inv(k, s) && s.consumer.ItemCopied?
    ensures Inv(k, Step(k, s, PopPublish))
  {
    MaskedNext(Takes(s.history), k);
    PublishTail(k, s, Content(k, s).value);
  }

  lemma StepKeepsInv<T>(k: nat, s: Ring<T>, a: Action<T>)
    requires Inv(k, s) && Enabled(s, a)
    ensures Inv(k, Step(k, s, a))
  {
    match a
    case PushLoadHead(_) =>
    case PushCheck => PushCheckKeepsInv(k, s);
    case PushStore => PushStoreKeepsInv(k, s);
    case PushPublish => PushPublishKeepsInv(k, s);
    case PopLoadTail =>
    case PopCheck => PopCheckKeepsInv(k, s);
    case PopCopy => PopCopyKeepsInv(k, s);
    case PopPublish => PopPublishKeepsInv(k, s);
  }

  lemma {:induction false} RunKeepsInv<T>(k: nat, s: Ring<T>, acts: seq<Action<T>>)
    requires Inv(k, s) && Legal(k, s, acts)
    ensures Inv(k, Run(k, s, acts))
    decreases |acts|
  {
    if acts != [] {
      StepKeepsInv(k, s, acts[0]);
      RunKeepsInv(k, Step(k, s, acts[0]), acts[1..]);
    }
  }

  /** size(): the 64-bit difference of the two indices, masked. */
  function SizeOf(k: nat, h: nat, t: nat): nat
  {
    And((h - t) % TWO64, Pow2(k) - 1)
  }

  lemma SizeIsLength(k: nat, a: nat, p: nat)
    requires k <= 64 && p <= a < p + Pow2(k)
    ensures SizeOf(k, Slot(a, Pow2(k)), Slot(p, Pow2(k))) == a - p
  {
    var n := Pow2(k);
    var d := Slot(a, n) - Slot(p, n);
    WordIsPow2();
    var q := Pow2Divides(k, 64);
    SlotDistance(a, p, n, q);
    MaskIsMod(d % TWO64, k);
  }

  /** Linearisability: under every interleaving the observed events are a history of a FIFO
      of capacity N - 1: items leave once and in order, push refuses exactly when the FIFO
      is full and pop finds nothing exactly when it is empty. The content still queued is in
      the ring, the drop counter counts the refusals, and the masked unsigned difference of
      the two indices, as they are at that moment, is the exact length. */
  lemma Linearisable<T>(k: nat, s: Ring<T>, acts: seq<Action<T>>)
    requires Init(k, s) && Legal(k, s, acts) && k <= 64
    ensures var e := Run(k, s, acts);
      var r := FifoRun(e.history, Pow2(k) - 1);
      && r.Some?
      && |e.buf| == Pow2(k)
      && Holds(e.buf, Takes(e.history), r.value) && e.tail == Slot(Takes(e.history), |e.buf|)
      && e.drops == Refusals(e.history)
      && SizeOf(k, e.head, e.tail) == |r.value|
  {
    RunKeepsInv(k, s, acts);
    var e := Run(k, s, acts);
    var p := Takes(e.history);
    SizeIsLength(k, p + |FifoRun(e.history, Pow2(k) - 1).value|, p);
  }

  // ----- size(), whose two loads other steps come between -----

  /** A caller of size(): away, or holding the head it loaded when `accepted` pushes were through. */
  datatype Caller = Away | HeadKept(h: nat, accepted: nat)

  /** What a call came to: the pushes through when it loaded the head, the pops through when it
      loaded the tail, and the size it returned. */
  datatype Reading = Reading(accepted: nat, taken: nat, size: nat)

  datatype Observed<T> = Observed(ring: Ring<T>, caller: Caller, readings: seq<Reading>)

  datatype Move<T> = ByThread(a: Action<T>) | SizeLoadHead | SizeLoadTail

  predicate CanMove<T>(o: Observed<T>, m: Move<T>)
  {
    match m
    case ByThread(a) => Enabled(o.ring, a)
    case SizeLoadHead => o.caller.Away?
    case SizeLoadTail => o.caller.HeadKept?
  }

  function Moved<T>(k: nat, o: Observed<T>, m: Move<T>): Observed<T>
    requires CanMove(o, m)
  {
    match m
    case ByThread(a) => o.(ring := Step(k, o.ring, a))
    case SizeLoadHead => o.(caller := HeadKept(o.ring.head, Accepts(o.ring.history)))
    case SizeLoadTail =>
      o.(caller := Away,
         readings := o.readings + [Reading(o.caller.accepted, Takes(o.ring.history), SizeOf(k, o.caller.h, o.ring.tail))])
  }

  predicate CanMoveAll<T>(k: nat, o: Observed<T>, moves: seq<Move<T>>)
    decreases |moves|
  {
    moves == [] || (CanMove(o, moves[0]) && CanMoveAll(k, Moved(k, o, moves[0]), moves[1..]))
  }

  function MovedAll<T>(k: nat, o: Observed<T>, moves: seq<Move<T>>): Observed<T>
    requires CanMoveAll(k, o, moves)
    decreases |moves|
  {
    if moves == [] then o else MovedAll(k, Moved(k, o, moves[0]), moves[1..])
  }

  /** The items pushed by the one load and not popped by the other; once pops have overtaken the head
      that was loaded, their lead counted down from N. */
  function Between(k: nat, accepted: nat, taken: nat): nat
  {
    var n := Pow2(k);
    if taken <= accepted then accepted - taken
    else if Slot(taken - accepted, n) == 0 then 0 else n - Slot(taken - accepted, n)
  }

  lemma {:induction false} SizeIsBetween(k: nat, a: nat, p: nat)
    requires k <= 64 && a < p + Pow2(k)
    ensures SizeOf(k, Slot(a, Pow2(k)), Slot(p, Pow2(k))) == Between(k, a, p)
    decreases p
  {
    var n := Pow2(k);
    if p <= a {
      SizeIsLength(k, a, p);
    } else if p - a < n {
      assert Slot(a + n, n) == Slot(a, n);
      SizeIsLength(k, a + n, p);
    } else if p - a == n {
      assert Slot(p, n) == Slot(a, n);
      assert Slot(n, n) == 0;
      SizeIsLength(k, a, a);
    } else {
      assert Slot(p, n) == Slot(p - n, n);
      SizeIsBetween(k, a, p - n);
    }
  }

  /** The counts only rise, each by its own thread's publishing store. */
  lemma CountsRise<T>(k: nat, s: Ring<T>, a: Action<T>)
    requires Enabled(s, a)
    ensures var e := Step(k, s, a);
      && Accepts(e.history) == Accepts(s.history) + (if a.PushPublish? then 1 else 0)
      && Takes(e.history) == Takes(s.history) + (if a.PopPublish? then 1 else 0)
  {
    var e := Step(k, s, a);
    if e.history != s.history {
      assert e.history[..|e.history| - 1] == s.history;
    }
  }

  predicate ReadingOk(k: nat, r: Reading)
  {
    r.accepted < r.taken + Pow2(k) && r.size == Between(k, r.accepted, r.taken)
  }

  ghost predicate ObservedOk<T>(k: nat, o: Observed<T>)
  {
    && Inv(k, o.ring)
    && (o.caller.HeadKept? ==> o.caller.accepted <= Accepts(o.ring.history) && o.caller.h == Slot(o.caller.accepted, Pow2(k)))
    && forall i :: 0 <= i < |o.readings| ==> ReadingOk(k, o.readings[i])
  }

  lemma MoveKeepsOk<T>(k: nat, o: Observed<T>, m: Move<T>)
    requires k <= 64 && ObservedOk(k, o) && CanMove(o, m)
    ensures ObservedOk(k, Moved(k, o, m))
  {
    match m
    case ByThread(a) =>
      StepKeepsInv(k, o.ring, a);
      CountsRise(k, o.ring, a);
    case SizeLoadHead =>
    case SizeLoadTail => SizeIsBetween(k, o.caller.accepted, Takes(o.ring.history));
  }

  lemma {:induction false} MovesKeepOk<T>(k: nat, o: Observed<T>, moves: seq<Move<T>>)
    requires k <= 64 && ObservedOk(k, o) && CanMoveAll(k, o, moves)
    ensures ObservedOk(k, MovedAll(k, o, moves))
    decreases |moves|
  {
    if moves != [] {
      MoveKeepsOk(k, o, moves[0]);
      MovesKeepOk(k, Moved(k, o, moves[0]), moves[1..]);
    }
  }

  /** Whatever comes between its two loads, size() returns the items pushed by the first and not popped
      by the second, as long as pops have not overtaken the head it loaded; otherwise it counts their
      lead down from N. */
  lemma SizeUnderInterleaving<T>(k: nat, s: Ring<T>, moves: seq<Move<T>>)
    requires k <= 64 && Init(k, s) && CanMoveAll(k, Observed(s, Away, []), moves)
    ensures forall r :: r in MovedAll(k, Observed(s, Away, []), moves).readings ==>
      r.accepted < r.taken + Pow2(k) && r.size == Between(k, r.accepted, r.taken)
  {
    MovesKeepOk(k, Observed(s, Away, []), moves);
  }

  function ThreadMoves<T>(acts: seq<Action<T>>): seq<Move<T>>
    decreases |acts|
  {
    if acts == [] then [] else [ByThread(acts[0])] + ThreadMoves(acts[1..])
  }

  /** Steps of the two threads, and then the second load. */
  lemma {:induction false} ThreadsThenTail<T>(k: nat, o: Observed<T>, acts: seq<Action<T>>)
    requires Legal(k, o.ring, acts) && o.caller.HeadKept?
    ensures CanMoveAll(k, o, ThreadMoves(acts) + [SizeLoadTail])
    ensures var e := Run(k, o.ring, acts);
      MovedAll(k, o, ThreadMoves(acts) + [SizeLoadTail])
        == Observed(e, Away, o.readings + [Reading(o.caller.accepted, Takes(e.history), SizeOf(k, o.caller.h, e.tail))])
    decreases |acts|
  {
    var moves := ThreadMoves(acts) + [SizeLoadTail];
    if acts == [] {
      assert moves == [SizeLoadTail] && moves[1..] == [];
    } else {
      assert moves[0] == ByThread(acts[0]) && moves[1..] == ThreadMoves(acts[1..]) + [SizeLoadTail];
      ThreadsThenTail(k, Moved(k, o, moves[0]), acts[1..]);
    }
  }

  /** A push and a pop that come between a third thread's loads: it gets N - 1 for an empty queue. */
  lemma OvertakenSize<T>(k: nat, s: Ring<T>, x: T) returns (moves: seq<Move<T>>)
    requires 0 < k <= 64 && Init(k, s)
    ensures var o := Observed(s, Away, []);
      && CanMoveAll(k, o, moves)
      && MovedAll(k, o, moves).ring.head == MovedAll(k, o, moves).ring.tail
      && MovedAll(k, o, moves).readings == [Reading(0, 1, Pow2(k) - 1)]
  {
    var o := Observed(s, Away, []);
    var p := Moved(k, o, SizeLoadHead);
    var push := [PushLoadHead(x), PushCheck, PushStore, PushPublish];
    var pop := [PopLoadTail, PopCheck, PopCopy, PopPublish];
    var s1, s2 := PushAndPop(k, s, x);
    RunBoth(k, s, push, pop);
    ThreadsThenTail(k, p, push + pop);
    var rest := ThreadMoves(push + pop) + [SizeLoadTail];
    moves := [SizeLoadHead] + rest;
    assert moves[0] == SizeLoadHead && moves[1..] == rest;
    assert Pow2(k) >= 2;
    SizeIsBetween(k, 0, 1);
  }

  lemma PushAndPop<T>(k: nat, s: Ring<T>, x: T) returns (s1: Ring<T>, s2: Ring<T>)
    requires k > 0 && Init(k, s)
    ensures var push := [PushLoadHead(x), PushCheck, PushStore, PushPublish]; Legal(k, s, push) && s1 == Run(k, s, push)
    ensures var pop := [PopLoadTail, PopCheck, PopCopy, PopPublish]; Legal<T>(k, s1, pop) && s2 == Run(k, s1, pop)
    ensures s2.head == s2.tail == Slot(1, Pow2(k)) && Takes(s2.history) == 1
  {
    assert Pow2(k) >= 2;
    MaskedNext(0, k);
    PushAccepted(k, s, x);
    s1 := Accept(k, s, x);
    assert s1.history == [Accepted(x)] && s1.head == 1 && s1.tail == 0;
    PopTaken(k, s1);
    s2 := Take(k, s1);
    assert s2.history == [Accepted(x), Taken(x)] && s2.history[..1] == [Accepted(x)];
    assert Takes([Accepted(x)]) == 0;
  }

  lemma {:induction false} RunBoth<T>(k: nat, s: Ring<T>, a: seq<Action<T>>, b: seq<Action<T>>)
    requires Legal(k, s, a) && Legal(k, Run(k, s, a), b)
    ensures Legal(k, s, a + b) && Run(k, s, a + b) == Run(k, Run(k, s, a), b)
    decreases |a|
  {
    if a == [] {
      assert a + b == b;
    } else {
      assert (a + b)[0] == a[0] && (a + b)[1..] == a[1..] + b;
      RunBoth(k, Step(k, s, a[0]), a[1..], b);
    }
  }

  lemma {:induction false} StaysPut<T>(k: nat, s: Ring<T>, acts: seq<Action<T>>)
    requires Inv(k, s) && Legal(k, s, acts)
    ensures var e := Run(k, s, acts);
      && Inv(k, e) && Accepts(e.history) >= Accepts(s.history) && Takes(e.history) >= Takes(s.history)
      && (PushPublish !in acts ==> Accepts(e.history) == Accepts(s.history))
      && (PopPublish !in acts ==> Takes(e.history) == Takes(s.history))
    decreases |acts|
  {
    if acts != [] {
      CountsRise(k, s, acts[0]);
      StepKeepsInv(k, s, acts[0]);
      StaysPut(k, Step(k, s, acts[0]), acts[1..]);
    }
  }

  /** Where the indices of a ring stand, by the counts. */
  lemma Indices<T>(k: nat, s: Ring<T>)
    requires Inv(k, s)
    ensures var a, p, n := Accepts(s.history), Takes(s.history), Pow2(k);
      p <= a < p + n && s.head == Slot(a, n) && s.tail == Slot(p, n) && |Content(k, s).value| == a - p
  {}

  /** The two threads read exactly: between its own loads the producer publishes nothing, and gets the
      length at the second; the consumer takes nothing, and gets the length at the first. */
  lemma OwnSizeIsExact<T>(k: nat, s: Ring<T>, acts: seq<Action<T>>, e: Ring<T>)
    requires k <= 64 && Inv(k, s) && Legal(k, s, acts) && e == Run(k, s, acts)
    ensures Inv(k, e)
    ensures PushPublish !in acts ==> SizeOf(k, s.head, e.tail) == |Content(k, e).value|
    ensures PopPublish !in acts ==> SizeOf(k, s.head, e.tail) == |Content(k, s).value|
  {
    StaysPut(k, s, acts);
    Indices(k, s);
    Indices(k, e);
    SizeIsBetween(k, Accepts(s.history), Takes(e.history));
  }

  // ----- whole calls, uninterrupted -----

  ghost function Refuse<T>(s: Ring<T>, x: T): Ring<T> {
    s.(drops := s.drops + 1, history := s.history + [Refused(x)])
  }

  ghost function Accept<T>(k: nat, s: Ring<T>, x: T): Ring<T>
    requires s.head < |s.buf|
  {
    s.(head := And(s.head + 1, Pow2(k) - 1), buf := s.buf[s.head := x], history := s.history + [Accepted(x)])
  }

  ghost function Miss<T>(s: Ring<T>): Ring<T> {
    s.(history := s.history + [FoundEmpty])
  }

  ghost function Take<T>(k: nat, s: Ring<T>): Ring<T>
    requires s.tail < |s.buf|
  {
    s.(tail := And(s.tail + 1, Pow2(k) - 1), history := s.history + [Taken(s.buf[s.tail])])
  }

  lemma PushRefused<T>(k: nat, s: Ring<T>, x: T)
    requires s.producer.PushIdle? && And(s.head + 1, Pow2(k) - 1) == s.tail
    ensures Legal(k, s, [PushLoadHead(x), PushCheck])
    ensures Run(k, s, [PushLoadHead(x), PushCheck]) == Refuse(s, x)
  {
    RunTwo(k, s, PushLoadHead(x), PushCheck);
  }

  lemma PushAccepted<T>(k: nat, s: Ring<T>, x: T)
    requires s.producer.PushIdle? && And(s.head + 1, Pow2(k) - 1) != s.tail && s.head < |s.buf|
    ensures Legal(k, s, [PushLoadHead(x), PushCheck, PushStore, PushPublish])
    ensures Run(k, s, [PushLoadHead(x), PushCheck, PushStore, PushPublish]) == Accept(k, s, x)
  {
    RunFour(k, s, PushLoadHead(x), PushCheck, PushStore, PushPublish);
  }

  lemma PopMissed<T>(k: nat, s: Ring<T>)
    requires s.consumer.PopIdle? && s.head == s.tail
    ensures Legal(k, s, [PopLoadTail, PopCheck])
    ensures Run(k, s, [PopLoadTail, PopCheck]) == Miss(s)
  {
    RunTwo(k, s, PopLoadTail, PopCheck);
  }

  lemma PopTaken<T>(k: nat, s: Ring<T>)
    requires s.consumer.PopIdle? && s.head != s.tail && s.tail < |s.buf|
    ensures Legal(k, s, [PopLoadTail, PopCheck, PopCopy, PopPublish])
    ensures Run(k, s, [PopLoadTail, PopCheck, PopCopy, PopPublish]) == Take(k, s)
  {
    RunFour(k, s, PopLoadTail, PopCheck, PopCopy, PopPublish);
  }

  /** A push that nothing interrupts: refused exactly when N - 1 items are waiting. */
  lemma PushEffect<T>(k: nat, s: Ring<T>, x: T)
    requires Content(k, s).Some? && s.producer.PushIdle? && s.consumer.PopIdle?
    ensures s.head < |s.buf|
    ensures var q := Content(k, s).value;
      if And(s.head + 1, Pow2(k) - 1) == s.tail then
        |q| == Pow2(k) - 1 && Content(k, Refuse(s, x)) == Some(q)
      else
        |q| < Pow2(k) - 1 && Content(k, Accept(k, s, x)) == Some(q + [x])
  {
    var q := Content(k, s).value;
    MaskedNext(Accepts(s.history), k);
    FullTest(Pow2(k), Accepts(s.history), Takes(s.history));
    if And(s.head + 1, Pow2(k) - 1) == s.tail {
      RefusedNoted(k, s, q, x);
      Settled(k, Refuse(s, x), Refuse(s, x), q);
    } else {
      AcceptKeepsInv(k, s, x);
    }
  }

  lemma StoredRepresents<T>(k: nat, s: Ring<T>, q: seq<T>, x: T)
    requires Represents(k, s, q) && |q| < Pow2(k) - 1 && s.head < |s.buf|
    ensures Represents(k, s.(buf := s.buf[s.head := x]), q)
  {
    StoreKeeps(s.buf, Takes(s.history), q, x);
  }

  lemma AcceptKeepsInv<T>(k: nat, s: Ring<T>, x: T)
    requires Inv(k, s) && s.producer.PushIdle? && s.consumer.PopIdle? && s.head < |s.buf|
    requires |Content(k, s).value| < Pow2(k) - 1
    ensures Inv(k, Accept(k, s, x))
    ensures Content(k, Accept(k, s, x)) == Some(Content(k, s).value + [x])
  {
    var q := Content(k, s).value;
    var stored := s.(buf := s.buf[s.head := x]);
    MaskedNext(Accepts(s.history), k);
    StoredRepresents(k, s, q, x);
    PublishHead(k, stored, q, x);
    Settled(k, stored.(head := Slot(Accepts(s.history) + 1, Pow2(k)), history := s.history + [Accepted(x)]), Accept(k, s, x), q + [x]);
  }

  /** A pop that nothing interrupts: the oldest item, or nothing exactly when none is waiting. */
  lemma PopEffect<T>(k: nat, s: Ring<T>)
    requires Content(k, s).Some? && s.producer.PushIdle? && s.consumer.PopIdle?
    ensures s.tail < |s.buf|
    ensures var q := Content(k, s).value;
      if s.tail == s.head then
        q == [] && Content(k, Miss(s)) == Some(q)
      else
        q != [] && s.buf[s.tail] == q[0] && Content(k, Take(k, s)) == Some(q[1..])
  {
    var q := Content(k, s).value;
    if s.tail == s.head {
      SameSlot(Takes(s.history), Accepts(s.history), Pow2(k));
      EmptyNoted(k, s, q);
      Settled(k, Miss(s), Miss(s), q);
    } else {
      TakeKeepsInv(k, s);
    }
  }

  lemma ContentSize<T>(k: nat, s: Ring<T>)
    requires Content(k, s).Some? && k <= 64
    ensures SizeOf(k, s.head, s.tail) == |Content(k, s).value|
    ensures s.head == s.tail <==> Content(k, s).value == []
  {
    var p, q := Takes(s.history), Content(k, s).value;
    SizeIsLength(k, p + |q|, p);
    if s.head == s.tail { SameSlot(p, p + |q|, Pow2(k)); }
  }

  lemma TakeKeepsInv<T>(k: nat, s: Ring<T>)
    requires Inv(k, s) && s.producer.PushIdle? && s.consumer.PopIdle? && s.tail != s.head
    ensures s.tail < |s.buf| && Inv(k, Take(k, s))
    ensures var q := Content(k, s).value;
      && q != [] && s.buf[s.tail] == q[0]
      && Content(k, Take(k, s)) == Some(q[1..])
  {
    MaskedNext(Takes(s.history), k);
    PublishTail(k, s, Content(k, s).value);
  }

  // ----- the class -----

  class SPSCQueue<T(0,==)> {
    const k: nat
    const buf: array<T>
    var head: nat
    var tail: nat
    var dropCount: nat
    ghost var history: seq<Event<T>>

    /** The queue between calls, as a state of the machine. */
    ghost function Machine(): Ring<T>
      reads this, buf
    {
      Ring(head, tail, buf[..], dropCount, PushIdle, PopIdle, history)
    }

    ghost predicate Valid()
      reads this, buf
    {
      k <= 64 && Content(k, Machine()).Some?
    }

    ghost function Contents(): seq<T>
      reads this, buf
      requires Valid()
    {
      Content(k, Machine()).value
    }

    constructor (k: nat)
      requires k <= 64
      ensures Valid() && fresh(buf) && this.k == k && Contents() == [] && dropCount == 0
      ensures Init(k, Machine())
    {
      this.k := k;
      buf := new T[Pow2(k)];
      head, tail, dropCount := 0, 0, 0;
      history := [];
    }

    /** push, run without interruption: the machine takes the producer's steps one after
        another, and the item joins the queue unless N - 1 items are already waiting. */
    method Push(item: T) returns (ok: bool)
      requires Valid()
      modifies this, buf
      ensures Valid()
      ensures ok == (|old(Contents())| < Pow2(k) - 1)
      ensures Contents() == if ok then old(Contents()) + [item] else old(Contents())
      ensures dropCount == old(dropCount) + if ok then 0 else 1
      ensures var acts := if ok then [PushLoadHead(item), PushCheck, PushStore, PushPublish]
                          else [PushLoadHead(item), PushCheck];
        Legal(k, old(Machine()), acts) && Machine() == Run(k, old(Machine()), acts)
    {
      ghost var s0 := Machine();
      PushEffect(k, s0, item);
      var h := head;
      var next := And(h + 1, Pow2(k) - 1);
      ok := next != tail;
      if ok {
        PushAccepted(k, s0, item);
        Store(item, h, next);
      } else {
        PushRefused(k, s0, item);
        dropCount := dropCount + 1;
        history := history + [Refused(item)];
        assert Machine() == Refuse(s0, item);
      }
    }

    /** The item goes into the free slot, and then the next head is published. */
    method Store(item: T, h: nat, next: nat)
      requires h == head < buf.Length && next == And(h + 1, Pow2(k) - 1)
      modifies this, buf
      ensures Machine() == Accept(k, old(Machine()), item)
    {
      buf[h] := item;
      head := next;
      history := history + [Accepted(item)];
    }

    method Pop() returns (r: Option<T>)
      requires Valid()
      modifies this
      ensures Valid()
      ensures r == if old(Contents()) == [] then None else Some(old(Contents())[0])
      ensures Contents() == if r.None? then old(Contents()) else old(Contents())[1..]
      ensures dropCount == old(dropCount)
      ensures var acts := if r.None? then [PopLoadTail, PopCheck]
                          else [PopLoadTail, PopCheck, PopCopy, PopPublish];
        Legal(k, old(Machine()), acts) && Machine() == Run(k, old(Machine()), acts)
    {
      ghost var s0 := Machine();
      PopEffect(k, s0);
      var t := tail;
      if t == head {
        PopMissed(k, s0);
        r := None;
        history := history + [FoundEmpty];
        assert Machine() == Miss(s0);
      } else {
        PopTaken(k, s0);
        var item := Fetch(t);
        r := Some(item);
      }
    }

    /** The oldest item is copied out, and then the next tail is published. */
    method Fetch(t: nat) returns (item: T)
      requires t == tail < buf.Length
      modifies this
      ensures item == buf[t] && Machine() == Take(k, old(Machine())) && dropCount == old(dropCount)
    {
      item := buf[t];
      tail := And(t + 1, Pow2(k) - 1);
      history := history + [Taken(item)];
    }

    method Size() returns (n: nat)
      requires Valid()
      ensures n == |Contents()|
    {
      n := And((head - tail) % TWO64, Pow2(k) - 1);
      ContentSize(k, Machine());
    }

    method Empty() returns (e: bool)
      requires Valid()
      ensures e == (Contents() == [])
    {
      e := head == tail;
      ContentSize(k, Machine());
    }
  }

  lemma RunTwo<T>(k: nat, s: Ring<T>, a: Action<T>, b: Action<T>)
    requires Enabled(s, a) && Enabled(Step(k, s, a), b)
    ensures Legal(k, s, [a, b]) && Run(k, s, [a, b]) == Step(k, Step(k, s, a), b)
  {
    var s1 := Step(k, s, a);
    assert [a, b][1..] == [b];
    assert Legal(k, s1, [b]) by { assert [b][1..] == []; }
    assert Run(k, s1, [b]) == Step(k, s1, b) by { assert [b][1..] == []; }
  }

  lemma RunFour<T>(k: nat, s: Ring<T>, a: Action<T>, b: Action<T>, c: Action<T>, d: Action<T>)
    requires Enabled(s, a) && Enabled(Step(k, s, a), b)
    requires var s2 := Step(k, Step(k, s, a), b); Enabled(s2, c) && Enabled(Step(k, s2, c), d)
    ensures Legal(k, s, [a, b, c, d])
    ensures Run(k, s, [a, b, c, d]) == Step(k, Step(k, Step(k, Step(k, s, a), b), c), d)
  {
    var s1 := Step(k, s, a);
    var s2 := Step(k, s1, b);
    assert [a, b, c, d][1..] == [b, c, d] && [b, c, d][1..] == [c, d];
    RunTwo(k, s2, c, d);
    assert Legal(k, s1, [b, c, d]) && Run(k, s1, [b, c, d]) == Run(k, s2, [c, d]);
  }
}
