/** The multi-producer single-consumer ring of the asynchronous logger, as a machine whose
    steps are the single atomic loads, stores and compare-exchanges of enqueue_fixed and
    consumer_loop, and the word-by-word copies of a message into and out of a slot. */
module LogRing {
  import opened Words

  datatype Level = Info | Warn | Error

  /** One separately written part of a slot: the level, or a piece of the rest (thread id,
      timestamp, text). A message is the sequence of its parts. */
  datatype Word = LevelWord(level: Level) | TextWord(v: int)

  type Message = seq<Word>

  function LevelOf(m: Message): (l: Level)
    ensures l == Warn <==> |m| > 0 && m[0] == LevelWord(Warn)
    ensures l == Error <==> |m| > 0 && m[0] == LevelWord(Error)
  {
    if |m| > 0 && m[0].LevelWord? then m[0].level else Info
  }

  datatype SlotState = Empty | Writing | Ready
  datatype RingSlot = RingSlot(state: SlotState, words: seq<Word>)

  /** Where a producer is inside enqueue_fixed. `head` is its register; `seen` counts how many
      tickets had been claimed when the register was loaded. */
  datatype Producer =
    | Idle
    | Looping(msg: Message, head: nat, seen: nat)
    | Stalled(msg: Message)
    | Admitted(msg: Message, head: nat, seen: nat)
    | Claimed(msg: Message, head: nat, ticket: nat)
    | Filling(msg: Message, head: nat, ticket: nat, copied: nat)
  {
    predicate Owns() { Claimed? || Filling? }
  }

  datatype Consumer =
    | Resting
    | Scanning(tail: nat, taken: nat)
    | Reading(tail: nat, taken: nat, words: seq<Word>)
    | Clearing(tail: nat, taken: nat)
    | Leaving(tail: nat)

  /** 2^k slots, counters of w bits, messages of `words` parts. */
  datatype Config = Config(k: nat, w: nat, words: nat)
  {
    function Cap(): (n: nat) ensures n > 0 { Pow2(k) }
    function Wrap(): (m: nat) ensures m > 0 { Pow2(w) }
    /** A counter of w bits that has been incremented t times. */
    function Reg(t: nat): nat { Slot(t, Wrap()) }
    /** Unsigned subtraction of two w-bit registers. */
    function Minus(a: nat, b: nat): nat { if a >= b then a - b else if a + Wrap() >= b then a + Wrap() - b else 0 }
    function Plus1(a: nat): nat { if a + 1 == Wrap() then 0 else a + 1 }
    function Index(register: nat): nat { And(register, Pow2(k) - 1) }
  }

  /** Shared memory, the threads, and the history: the messages of the tickets claimed so far
      in CAS order, how many the consumer has given back through read_tail_, the messages
      written out, the ones dropped, and all that enqueue_fixed was called with. */
  datatype Ring = Ring(
    writeHead: nat, readTail: nat, slots: seq<RingSlot>,
    producers: seq<Producer>, consumer: Consumer,
    claimed: seq<Message>, published: nat, out: seq<Message>, dropped: seq<Message>,
    begun: seq<Message>)

  const BATCH: nat := 256

  datatype Action =
    | Begin(p: nat, m: Message) | LoadTail(p: nat) | Reload(p: nat)
    | CasWin(p: nat) | CasLose(p: nat) | Mark(p: nat) | Copy(p: nat) | Seal(p: nat)
    | StartBatch | Scan | Read | Emit | Clear | Publish

  predicate Enabled(c: Config, s: Ring, a: Action)
  {
    match a
    case Begin(p, m) => p < |s.producers| && s.producers[p].Idle? && |m| == c.words
    case LoadTail(p) => p < |s.producers| && s.producers[p].Looping?
    case Reload(p) => p < |s.producers| && s.producers[p].Stalled?
    case CasWin(p) => p < |s.producers| && s.producers[p].Admitted? && s.producers[p].head == s.writeHead
    case CasLose(p) => p < |s.producers| && s.producers[p].Admitted?
    case Mark(p) => p < |s.producers| && s.producers[p].Claimed? && c.Index(s.producers[p].head) < |s.slots|
    case Copy(p) =>
      && p < |s.producers| && s.producers[p].Filling? && c.Index(s.producers[p].head) < |s.slots|
      && s.producers[p].copied < |s.producers[p].msg|
      && s.producers[p].copied < |s.slots[c.Index(s.producers[p].head)].words|
    case Seal(p) =>
      && p < |s.producers| && s.producers[p].Filling? && c.Index(s.producers[p].head) < |s.slots|
      && s.producers[p].copied == |s.producers[p].msg|
    case StartBatch => s.consumer.Resting?
    case Scan => s.consumer.Scanning? && c.Index(s.consumer.tail) < |s.slots|
    case Read =>
      && s.consumer.Reading? && c.Index(s.consumer.tail) < |s.slots|
      && |s.consumer.words| < |s.slots[c.Index(s.consumer.tail)].words|
    case Emit =>
      && s.consumer.Reading? && c.Index(s.consumer.tail) < |s.slots|
      && |s.consumer.words| == |s.slots[c.Index(s.consumer.tail)].words|
    case Clear => s.consumer.Clearing? && c.Index(s.consumer.tail) < |s.slots|
    case Publish => s.consumer.Leaving?
  }

  function Step(c: Config, s: Ring, a: Action): Ring
    requires Enabled(c, s, a)
  {
    match a
    case Begin(p, m) =>
      s.(producers := s.producers[p := Looping(m, s.writeHead, |s.claimed|)], begun := s.begun + [m])
    case LoadTail(p) =>
      var me := s.producers[p];
      if c.Minus(me.head, s.readTail) >= c.Cap() then
        if LevelOf(me.msg) == Info then
          s.(producers := s.producers[p := Idle], dropped := s.dropped + [me.msg])
        else
          s.(producers := s.producers[p := Stalled(me.msg)])
      else
        s.(producers := s.producers[p := Admitted(me.msg, me.head, me.seen)])
    case Reload(p) =>
      s.(producers := s.producers[p := Looping(s.producers[p].msg, s.writeHead, |s.claimed|)])
    case CasWin(p) =>
      var me := s.producers[p];
      s.(writeHead := c.Plus1(me.head),
         producers := s.producers[p := Claimed(me.msg, me.head, |s.claimed|)],
         claimed := s.claimed + [me.msg])
    case CasLose(p) =>
      s.(producers := s.producers[p := Looping(s.producers[p].msg, s.writeHead, |s.claimed|)])
    case Mark(p) =>
      var me := s.producers[p];
      var j := c.Index(me.head);
      s.(slots := s.slots[j := s.slots[j].(state := Writing)],
         producers := s.producers[p := Filling(me.msg, me.head, me.ticket, 0)])
    case Copy(p) =>
      var me := s.producers[p];
      var j := c.Index(me.head);
      s.(slots := s.slots[j := s.slots[j].(words := s.slots[j].words[me.copied := me.msg[me.copied]])],
         producers := s.producers[p := Filling(me.msg, me.head, me.ticket, me.copied + 1)])
    case Seal(p) =>
      var j := c.Index(s.producers[p].head);
      s.(slots := s.slots[j := s.slots[j].(state := Ready)], producers := s.producers[p := Idle])
    case StartBatch => s.(consumer := Scanning(s.readTail, 0))
    case Scan =>
      if s.consumer.taken < BATCH && s.slots[c.Index(s.consumer.tail)].state == Ready then
        s.(consumer := Reading(s.consumer.tail, s.consumer.taken, []))
      else
        s.(consumer := Leaving(s.consumer.tail))
    case Read =>
      var got := s.slots[c.Index(s.consumer.tail)].words[|s.consumer.words|];
      s.(consumer := Reading(s.consumer.tail, s.consumer.taken, s.consumer.words + [got]))
    case Emit =>
      var m := s.consumer.words;
      s.(consumer := Clearing(s.consumer.tail, s.consumer.taken), out := s.out + [m])
    case Clear =>
      var j := c.Index(s.consumer.tail);
      s.(slots := s.slots[j := s.slots[j].(state := Empty)],
         consumer := Scanning(c.Plus1(s.consumer.tail), s.consumer.taken + 1))
    case Publish => s.(readTail := s.consumer.tail, published := Done(s), consumer := Resting)
  }

  /** How many tickets the consumer has finished with: the value its local tail counts. */
  function Done(s: Ring): nat
  {
    if s.consumer.Clearing? && |s.out| > 0 then |s.out| - 1 else |s.out|
  }

  predicate Legal(c: Config, s: Ring, acts: seq<Action>)
    decreases |acts|
  {
    acts == [] || (Enabled(c, s, acts[0]) && Legal(c, Step(c, s, acts[0]), acts[1..]))
  }

  function Run(c: Config, s: Ring, acts: seq<Action>): Ring
    requires Legal(c, s, acts)
    decreases |acts|
  {
    if acts == [] then s else Run(c, Step(c, s, acts[0]), acts[1..])
  }

  /** A compare-exchange that is won claims a free slot. */
  predicate RoomyStep(c: Config, s: Ring, a: Action)
  {
    a.CasWin? ==> |s.claimed| < s.published + c.Cap()
  }

  predicate Roomy(c: Config, s: Ring, acts: seq<Action>)
    requires Legal(c, s, acts)
    decreases |acts|
  {
    acts == [] || (RoomyStep(c, s, acts[0]) && Roomy(c, Step(c, s, acts[0]), acts[1..]))
  }

  /** No compare-exchange succeeds on a head that was loaded a whole counter range (2^w
      claims) earlier. */
  predicate TimelyStep(c: Config, s: Ring, a: Action)
    requires Enabled(c, s, a)
  {
    a.CasWin? ==> |s.claimed| < s.producers[a.p].seen + c.Wrap()
  }

  predicate Timely(c: Config, s: Ring, acts: seq<Action>)
    requires Legal(c, s, acts)
    decreases |acts|
  {
    acts == [] || (TimelyStep(c, s, acts[0]) && Timely(c, Step(c, s, acts[0]), acts[1..]))
  }

  /** The state start() leaves: every slot Empty (whatever text it holds), nobody inside. */
  ghost predicate Init(c: Config, s: Ring)
  {
    && c.k < c.w && |s.slots| == c.Cap()
    && (forall j :: 0 <= j < |s.slots| ==> s.slots[j].state == Empty && |s.slots[j].words| == c.words)
    && s.writeHead == 0 && s.readTail == 0 && s.published == 0
    && (forall p :: 0 <= p < |s.producers| ==> s.producers[p].Idle?)
    && s.consumer.Resting?
    && s.claimed == [] && s.out == [] && s.dropped == [] && s.begun == []
  }

  // ----- the invariant -----

  ghost predicate CountersOk(c: Config, s: Ring)
  {
    && c.k < c.w
    && s.published <= Done(s) <= |s.out| <= |s.claimed| <= s.published + c.Cap()
    && s.writeHead == c.Reg(|s.claimed|) && s.readTail == c.Reg(s.published)
    && (s.consumer.Resting? ==> s.published == Done(s))
    && (!s.consumer.Resting? ==> s.consumer.tail == c.Reg(Done(s)))
    && (s.consumer.Clearing? ==> |s.out| > 0)
  }

  ghost predicate ShapeOk(c: Config, s: Ring)
  {
    && |s.slots| == c.Cap()
    && (forall j :: 0 <= j < |s.slots| ==> |s.slots[j].words| == c.words)
    && (forall t :: 0 <= t < |s.claimed| ==> |s.claimed[t]| == c.words)
  }

  /** The message of ticket t is complete in its slot. */
  ghost predicate Delivered(n: nat, slots: seq<RingSlot>, claimed: seq<Message>, t: nat)
    requires |slots| == n > 0 && t < |claimed|
  {
    slots[Slot(t, n)].state == Ready && slots[Slot(t, n)].words == claimed[t]
  }

  ghost predicate OutputOk(c: Config, s: Ring)
    requires ShapeOk(c, s)
  {
    && |s.out| <= |s.claimed| && s.out == s.claimed[..|s.out|]
    && (s.consumer.Reading? || s.consumer.Clearing? ==>
          Done(s) < |s.claimed| && Delivered(c.Cap(), s.slots, s.claimed, Done(s)))
    && (s.consumer.Reading? ==> s.consumer.words <= s.claimed[Done(s)])
  }

  ghost predicate ProducerOk(c: Config, s: Ring, me: Producer)
    requires ShapeOk(c, s)
  {
    match me
    case Idle => true
    case Looping(m, head, seen) => |m| == c.words && seen <= |s.claimed| && head == c.Reg(seen)
    case Stalled(m) => |m| == c.words && LevelOf(m) != Info
    case Admitted(m, head, seen) =>
      && |m| == c.words && seen <= |s.claimed| && head == c.Reg(seen)
      && (seen == |s.claimed| ==> |s.claimed| < s.published + c.Cap())
    case Claimed(m, head, t) =>
      && Done(s) <= t < |s.claimed| && s.claimed[t] == m && head == c.Reg(t)
      && s.slots[Slot(t, c.Cap())].state == Empty
    case Filling(m, head, t, i) =>
      && Done(s) <= t < |s.claimed| && s.claimed[t] == m && head == c.Reg(t)
      && s.slots[Slot(t, c.Cap())].state == Writing
      && i <= |m| && s.slots[Slot(t, c.Cap())].words[..i] == m[..i]
  }

  ghost predicate ProducersOk(c: Config, s: Ring)
    requires ShapeOk(c, s)
  {
    forall p :: 0 <= p < |s.producers| ==> ProducerOk(c, s, s.producers[p])
  }

  ghost predicate OwnersDiffer(ps: seq<Producer>)
  {
    forall p, q :: 0 <= p < q < |ps| && ps[p].Owns() && ps[q].Owns() ==> ps[p].ticket != ps[q].ticket
  }

  ghost predicate Owned(ps: seq<Producer>, t: nat)
  {
    exists p :: 0 <= p < |ps| && ps[p].Owns() && ps[p].ticket == t
  }

  /** Every ticket in the consumer's window is delivered, in a producer's hands, or unclaimed
      with its slot Empty. */
  ghost predicate WindowOk(n: nat, slots: seq<RingSlot>, ps: seq<Producer>, claimed: seq<Message>, done: nat)
    requires |slots| == n > 0
  {
    && (forall t: nat :: done <= t < |claimed| ==> Delivered(n, slots, claimed, t) || Owned(ps, t))
    && (forall t: nat :: |claimed| <= t < done + n ==> slots[Slot(t, n)].state == Empty)
  }

  function Count(ms: seq<Message>, m: Message): nat
  {
    multiset(ms)[m]
  }

  /** Whether a producer is in a call for message m that has neither claimed a ticket nor
      given up. */
  function Waits(me: Producer, m: Message): nat
  {
    if (me.Looping? || me.Stalled? || me.Admitted?) && me.msg == m then 1 else 0
  }

  function InFlight(ps: seq<Producer>, m: Message): nat
  {
    if ps == [] then 0 else InFlight(ps[..|ps| - 1], m) + Waits(ps[|ps| - 1], m)
  }

  ghost predicate Accounted(s: Ring, m: Message)
  {
    Count(s.begun, m) == Count(s.claimed, m) + Count(s.dropped, m) + InFlight(s.producers, m)
  }

  /** Only Info messages are dropped. */
  ghost predicate DropsOk(s: Ring)
  {
    forall i :: 0 <= i < |s.dropped| ==> LevelOf(s.dropped[i]) == Info
  }

  ghost predicate Inv(c: Config, s: Ring)
  {
    && CountersOk(c, s) && ShapeOk(c, s) && OutputOk(c, s) && ProducersOk(c, s)
    && OwnersDiffer(s.producers)
    && WindowOk(c.Cap(), s.slots, s.producers, s.claimed, Done(s))
  }

  // ----- small facts -----

  lemma {:induction false} InFlightUpdate(ps: seq<Producer>, p: nat, me: Producer, m: Message)
    requires p < |ps|
    ensures InFlight(ps[p := me], m) == InFlight(ps, m) - Waits(ps[p], m) + Waits(me, m)
  {
    var init := ps[..|ps| - 1];
    if p == |init| {
      assert ps[p := me][..|init|] == init;
    } else {
      assert ps[p := me][..|init|] == init[p := me];
      InFlightUpdate(init, p, me, m);
    }
  }

  lemma {:induction false} NobodyWaits(ps: seq<Producer>, m: Message)
    requires forall p :: 0 <= p < |ps| ==> Waits(ps[p], m) == 0
    ensures InFlight(ps, m) == 0
  {
    if ps != [] { NobodyWaits(ps[..|ps| - 1], m); }
  }

  lemma CountAppend(ms: seq<Message>, x: Message, m: Message)
    ensures Count(ms + [x], m) == Count(ms, m) + if x == m then 1 else 0
  {
  }

  /** A register that counts tickets modulo 2^w selects the ticket's slot. */
  lemma IndexOf(c: Config, t: nat)
    requires c.k < c.w
    ensures c.Index(c.Reg(t)) == Slot(t, c.Cap())
  {
    SlotIsMod(t, c.Wrap());
    WrappedSlot(t, c.k, c.w);
  }

  /** The unsigned difference of two counters less than a counter range apart. */
  lemma RegMinus(c: Config, a: nat, b: nat)
    requires a < b + c.Wrap() && b < a + c.Wrap()
    ensures c.Minus(c.Reg(a), c.Reg(b)) == if a >= b then a - b else a + c.Wrap() - b
  {
    if a >= b { SlotDifference(a, b, c.Wrap()); } else {
      SlotDifference(a + c.Wrap(), b, c.Wrap());
      assert c.Reg(a + c.Wrap()) == c.Reg(a);
    }
  }

  lemma CapFits(c: Config)
    requires c.k < c.w
    ensures 2 * c.Cap() <= c.Wrap()
  {
    var q := Pow2Divides(c.k, c.w);
    Distribute(c.Cap(), q, 2);
    if q > 2 { Scale(c.Cap(), q - 2); }
  }

  /** A producer without a ticket changes its own record: nothing else speaks of it. */
  lemma WaitingMove(c: Config, s: Ring, s': Ring, p: nat, me: Producer)
    requires Inv(c, s) && p < |s.producers| && !s.producers[p].Owns() && !me.Owns()
    requires ProducerOk(c, s, me)
    requires s' == s.(producers := s.producers[p := me], dropped := s'.dropped, begun := s'.begun)
    ensures Inv(c, s')
  {
    OwnedKept(s.producers, p, me);
    forall q | 0 <= q < |s'.producers| ensures ProducerOk(c, s', s'.producers[q]) {
      assert ProducerOk(c, s, s.producers[q]);
    }
  }

  lemma OwnedKept(ps: seq<Producer>, p: nat, me: Producer)
    requires p < |ps| && !ps[p].Owns()
    ensures forall t: nat :: Owned(ps, t) ==> Owned(ps[p := me], t)
  {
    forall t: nat | Owned(ps, t) ensures Owned(ps[p := me], t) {
      var q :| 0 <= q < |ps| && ps[q].Owns() && ps[q].ticket == t;
      assert ps[p := me][q].ticket == t;
    }
  }

  // ----- each step keeps the invariant -----

  lemma WaitingStepKeepsInv(c: Config, s: Ring, a: Action)
    requires Inv(c, s) && Enabled(c, s, a)
    requires a.Begin? || a.LoadTail? || a.Reload? || a.CasLose?
    ensures Inv(c, Step(c, s, a))
  {
    var s' := Step(c, s, a);
    assert ProducerOk(c, s, s.producers[a.p]);
    if a.LoadTail? { AdmissionIsSound(c, s, a.p); }
    WaitingMove(c, s, s', a.p, s'.producers[a.p]);
  }

  /** The fullness test, with its unsigned subtraction: a head that is still the current one
      passes only while a slot is free. */
  lemma AdmissionIsSound(c: Config, s: Ring, p: nat)
    requires Inv(c, s) && Enabled(c, s, LoadTail(p))
    ensures var me := s.producers[p];
      c.Minus(me.head, s.readTail) < c.Cap() && me.seen == |s.claimed|
      ==> |s.claimed| < s.published + c.Cap()
  {
    var me := s.producers[p];
    assert ProducerOk(c, s, me);
    if me.seen == |s.claimed| {
      CapFits(c);
      RegMinus(c, me.seen, s.published);
    }
  }

  /** Winning the compare-exchange is safe exactly when a slot is free, however old the register. */
  lemma CasWinSafeIff(c: Config, s: Ring, p: nat)
    requires Inv(c, s) && Enabled(c, s, CasWin(p))
    ensures Inv(c, Step(c, s, CasWin(p))) <==> |s.claimed| < s.published + c.Cap()
  {
    if |s.claimed| < s.published + c.Cap() {
      ClaimKeepsInv(c, s, p);
    } else {
      assert !CountersOk(c, Step(c, s, CasWin(p)));
    }
  }

  lemma ClaimKeepsInv(c: Config, s: Ring, p: nat)
    requires Inv(c, s) && Enabled(c, s, CasWin(p)) && |s.claimed| < s.published + c.Cap()
    ensures Inv(c, Step(c, s, CasWin(p)))
  {
    var s' := Step(c, s, CasWin(p));
    assert ProducerOk(c, s, s.producers[p]);
    ClaimCounters(c, s, p);
    ClaimWindow(c, s, p);
    ClaimOutput(c, s, p);
    forall q | 0 <= q < |s'.producers| ensures ProducerOk(c, s', s'.producers[q]) { ClaimProducer(c, s, p, q); }
  }

  lemma ClaimOutput(c: Config, s: Ring, p: nat)
    requires Inv(c, s) && Enabled(c, s, CasWin(p)) && |s.claimed| < s.published + c.Cap()
    ensures var s' := Step(c, s, CasWin(p)); ShapeOk(c, s') && OutputOk(c, s') && OwnersDiffer(s'.producers)
  {
    assert ProducerOk(c, s, s.producers[p]);
    forall q | 0 <= q < |s.producers| && s.producers[q].Owns() ensures s.producers[q].ticket < |s.claimed| {
      assert ProducerOk(c, s, s.producers[q]);
    }
  }

  lemma ClaimProducer(c: Config, s: Ring, p: nat, q: nat)
    requires Inv(c, s) && Enabled(c, s, CasWin(p)) && |s.claimed| < s.published + c.Cap() && q < |s.producers|
    ensures var s' := Step(c, s, CasWin(p)); ShapeOk(c, s') && ProducerOk(c, s', s'.producers[q])
  {
    assert ProducerOk(c, s, s.producers[p]);
    assert ProducerOk(c, s, s.producers[q]);
  }

  /** The register of a timely win was current, so its check against an older tail still stands. */
  lemma TimelyIsRoomy(c: Config, s: Ring, a: Action)
    requires Inv(c, s) && Enabled(c, s, a) && TimelyStep(c, s, a)
    ensures RoomyStep(c, s, a)
  {
    if a.CasWin? {
      var me := s.producers[a.p];
      assert ProducerOk(c, s, me);
      SameSlot(me.seen, |s.claimed|, c.Wrap());
    }
  }

  lemma ClaimCounters(c: Config, s: Ring, p: nat)
    requires Inv(c, s) && Enabled(c, s, CasWin(p)) && |s.claimed| < s.published + c.Cap()
    ensures CountersOk(c, Step(c, s, CasWin(p)))
  {
    NextSlot(|s.claimed|, c.Wrap());
  }

  lemma ClaimWindow(c: Config, s: Ring, p: nat)
    requires Inv(c, s) && Enabled(c, s, CasWin(p)) && |s.claimed| < s.published + c.Cap()
    ensures var s' := Step(c, s, CasWin(p));
      WindowOk(c.Cap(), s'.slots, s'.producers, s'.claimed, Done(s'))
  {
    var s' := Step(c, s, CasWin(p));
    var n := c.Cap();
    OwnedKept(s.producers, p, s'.producers[p]);
    forall t: nat | Done(s') <= t < |s'.claimed| ensures Delivered(n, s'.slots, s'.claimed, t) || Owned(s'.producers, t) {
      if t == |s.claimed| {
        assert s'.producers[p].ticket == t;
      } else {
        assert Delivered(n, s.slots, s.claimed, t) || Owned(s.producers, t);
      }
    }
  }

  /** Two tickets of the window that share a slot are one ticket. */
  lemma WindowSlots(n: nat, done: nat, t: nat, u: nat)
    requires n > 0 && done <= t < done + n && done <= u < done + n && Slot(t, n) == Slot(u, n)
    ensures t == u
  {
    if t <= u { SameSlot(t, u, n); } else { SameSlot(u, t, n); }
  }

  /** The owner of ticket t rewrites the ticket's slot: every other owner, the consumer and
      every other ticket look at other slots. */
  lemma OwnerMove(c: Config, s: Ring, p: nat, me: Producer, slot: RingSlot)
    requires Inv(c, s) && p < |s.producers| && s.producers[p].Owns()
    requires me.Owns() ==> me.ticket == s.producers[p].ticket
    requires |slot.words| == c.words
    requires var t := s.producers[p].ticket;
      var s' := s.(slots := s.slots[Slot(t, c.Cap()) := slot], producers := s.producers[p := me]);
      && ProducerOk(c, s', me)
      && (!me.Owns() ==> t < |s.claimed| && Delivered(c.Cap(), s'.slots, s'.claimed, t))
    ensures Inv(c, s.(slots := s.slots[Slot(s.producers[p].ticket, c.Cap()) := slot], producers := s.producers[p := me]))
  {
    var n, t := c.Cap(), s.producers[p].ticket;
    var s' := s.(slots := s.slots[Slot(t, n) := slot], producers := s.producers[p := me]);
    assert ProducerOk(c, s, s.producers[p]);
    OwnerWindow(n, s, p, me, slot);
    OwnersStayApart(s.producers, p, me);
    OwnerOutput(c, s, s', p, slot);
    forall q | 0 <= q < |s'.producers| ensures ProducerOk(c, s', s'.producers[q]) {
      if q != p { OtherProducer(c, s, s', p, slot, q); }
    }
  }

  lemma OtherProducer(c: Config, s: Ring, s': Ring, p: nat, slot: RingSlot, q: nat)
    requires Inv(c, s) && p < |s.producers| && q < |s.producers| && p != q && s.producers[p].Owns() && ShapeOk(c, s')
    requires s' == s.(slots := s.slots[Slot(s.producers[p].ticket, c.Cap()) := slot], producers := s'.producers)
    ensures ProducerOk(c, s', s.producers[q])
  {
    OthersKeepSlots(c, s, p, q);
  }

  /** The slot that the consumer reads is not the owner's. */
  lemma OwnerOutput(c: Config, s: Ring, s': Ring, p: nat, slot: RingSlot)
    requires Inv(c, s) && p < |s.producers| && s.producers[p].Owns() && |slot.words| == c.words
    requires s' == s.(slots := s.slots[Slot(s.producers[p].ticket, c.Cap()) := slot], producers := s'.producers)
    ensures ShapeOk(c, s') && OutputOk(c, s')
  {
    assert ProducerOk(c, s, s.producers[p]);
  }

  lemma OwnersStayApart(ps: seq<Producer>, p: nat, me: Producer)
    requires OwnersDiffer(ps) && p < |ps| && ps[p].Owns() && (me.Owns() ==> me.ticket == ps[p].ticket)
    ensures OwnersDiffer(ps[p := me])
  {}

  /** Another owner's slot is not the one that owner p rewrites. */
  lemma OthersKeepSlots(c: Config, s: Ring, p: nat, q: nat)
    requires Inv(c, s) && p < |s.producers| && q < |s.producers| && p != q && s.producers[p].Owns()
    ensures ProducerOk(c, s, s.producers[q])
    ensures s.producers[q].Owns() ==> Slot(s.producers[q].ticket, c.Cap()) != Slot(s.producers[p].ticket, c.Cap())
  {
    var t := s.producers[p].ticket;
    assert ProducerOk(c, s, s.producers[p]) && ProducerOk(c, s, s.producers[q]);
    if s.producers[q].Owns() && Slot(s.producers[q].ticket, c.Cap()) == Slot(t, c.Cap()) {
      WindowSlots(c.Cap(), Done(s), s.producers[q].ticket, t);
    }
  }

  lemma OwnerWindow(n: nat, s: Ring, p: nat, me: Producer, slot: RingSlot)
    requires n == |s.slots| > 0 && p < |s.producers| && s.producers[p].Owns()
    requires WindowOk(n, s.slots, s.producers, s.claimed, Done(s))
    requires me.Owns() ==> me.ticket == s.producers[p].ticket
    requires Done(s) <= s.producers[p].ticket < |s.claimed| <= Done(s) + n
    requires !me.Owns() ==> Delivered(n, s.slots[Slot(s.producers[p].ticket, n) := slot], s.claimed, s.producers[p].ticket)
    ensures WindowOk(n, s.slots[Slot(s.producers[p].ticket, n) := slot], s.producers[p := me], s.claimed, Done(s))
  {
    var t := s.producers[p].ticket;
    var slots', ps' := s.slots[Slot(t, n) := slot], s.producers[p := me];
    forall u: nat | Done(s) <= u < |s.claimed| ensures Delivered(n, slots', s.claimed, u) || Owned(ps', u) {
      if u == t {
        if me.Owns() { assert ps'[p].ticket == t; }
      } else {
        if Slot(u, n) == Slot(t, n) { WindowSlots(n, Done(s), u, t); }
        if !Delivered(n, s.slots, s.claimed, u) {
          var q :| 0 <= q < |s.producers| && s.producers[q].Owns() && s.producers[q].ticket == u;
          assert ps'[q].ticket == u;
        }
      }
    }
    forall u: nat | |s.claimed| <= u < Done(s) + n ensures slots'[Slot(u, n)].state == Empty {
      if Slot(u, n) == Slot(t, n) { WindowSlots(n, Done(s), u, t); }
    }
  }

  lemma MarkKeepsInv(c: Config, s: Ring, p: nat)
    requires Inv(c, s) && Enabled(c, s, Mark(p))
    ensures Inv(c, Step(c, s, Mark(p)))
  {
    var me := s.producers[p];
    assert ProducerOk(c, s, me);
    IndexOf(c, me.ticket);
    OwnerMove(c, s, p, Filling(me.msg, me.head, me.ticket, 0), s.slots[Slot(me.ticket, c.Cap())].(state := Writing));
  }

  lemma CopyKeepsInv(c: Config, s: Ring, p: nat)
    requires Inv(c, s) && Enabled(c, s, Copy(p))
    ensures Inv(c, Step(c, s, Copy(p)))
  {
    var me := s.producers[p];
    assert ProducerOk(c, s, me);
    IndexOf(c, me.ticket);
    var slot := s.slots[Slot(me.ticket, c.Cap())];
    var words := slot.words[me.copied := me.msg[me.copied]];
    assert words[..me.copied + 1] == slot.words[..me.copied] + [me.msg[me.copied]];
    assert me.msg[..me.copied + 1] == me.msg[..me.copied] + [me.msg[me.copied]];
    OwnerMove(c, s, p, Filling(me.msg, me.head, me.ticket, me.copied + 1), slot.(words := words));
  }

  lemma SealKeepsInv(c: Config, s: Ring, p: nat)
    requires Inv(c, s) && Enabled(c, s, Seal(p))
    ensures Inv(c, Step(c, s, Seal(p)))
  {
    var me := s.producers[p];
    assert ProducerOk(c, s, me);
    IndexOf(c, me.ticket);
    var slot := s.slots[Slot(me.ticket, c.Cap())];
    assert slot.words == slot.words[..me.copied] == me.msg;
    OwnerMove(c, s, p, Idle, slot.(state := Ready));
  }

  // ----- the consumer's steps -----

  lemma ScanKeepsInv(c: Config, s: Ring)
    requires Inv(c, s) && Enabled(c, s, Scan)
    ensures Inv(c, Step(c, s, Scan))
  {
    var n, d := c.Cap(), Done(s);
    var s' := Step(c, s, Scan);
    IndexOf(c, d);
    if s'.consumer.Reading? {
      assert d < |s.claimed|;
      if !Delivered(n, s.slots, s.claimed, d) {
        var q :| 0 <= q < |s.producers| && s.producers[q].Owns() && s.producers[q].ticket == d;
        assert ProducerOk(c, s, s.producers[q]);
      }
    }
    ConsumerFrame(c, s, s');
  }

  /** Steps of the consumer that touch no slot and finish no ticket. */
  lemma ConsumerFrame(c: Config, s: Ring, s': Ring)
    requires Inv(c, s) && CountersOk(c, s')
    requires s' == s.(consumer := s'.consumer, out := s'.out, readTail := s'.readTail,
                      published := s'.published)
    requires Done(s') == Done(s) && s.published <= s'.published && OutputOk(c, s')
    ensures Inv(c, s')
  {
    forall q | 0 <= q < |s'.producers| ensures ProducerOk(c, s', s'.producers[q]) {
      assert ProducerOk(c, s, s.producers[q]);
    }
  }

  lemma QuietStepKeepsInv(c: Config, s: Ring, a: Action)
    requires Inv(c, s) && Enabled(c, s, a) && (a.StartBatch? || a.Read? || a.Publish?)
    ensures Inv(c, Step(c, s, a))
  {
    IndexOf(c, Done(s));
    ConsumerFrame(c, s, Step(c, s, a));
  }

  lemma EmitKeepsInv(c: Config, s: Ring)
    requires Inv(c, s) && Enabled(c, s, Emit)
    ensures Inv(c, Step(c, s, Emit))
    ensures Step(c, s, Emit).out == s.claimed[..|s.out| + 1]
  {
    IndexOf(c, Done(s));
    assert s.consumer.words == s.claimed[Done(s)];
    ConsumerFrame(c, s, Step(c, s, Emit));
  }

  lemma ClearKeepsInv(c: Config, s: Ring)
    requires Inv(c, s) && Enabled(c, s, Clear)
    ensures Inv(c, Step(c, s, Clear))
  {
    var n, d := c.Cap(), Done(s);
    var s' := Step(c, s, Clear);
    IndexOf(c, d);
    NextSlot(d, c.Wrap());
    assert Done(s') == d + 1;
    ClearWindow(n, s.slots, s.producers, s.claimed, d);
    forall q | 0 <= q < |s'.producers| ensures ProducerOk(c, s', s'.producers[q]) { ClearProducer(c, s, q); }
  }

  lemma ClearProducer(c: Config, s: Ring, q: nat)
    requires Inv(c, s) && Enabled(c, s, Clear) && q < |s.producers|
    ensures var s' := Step(c, s, Clear); ShapeOk(c, s') && ProducerOk(c, s', s'.producers[q])
  {
    var other := s.producers[q];
    IndexOf(c, Done(s));
    assert ProducerOk(c, s, other);
    assert other.Owns() ==> s.slots[Slot(other.ticket, c.Cap())].state != Ready;
  }

  /** Emptying the slot of the first ticket frees it for the ticket one ring length later. */
  lemma ClearWindow(n: nat, slots: seq<RingSlot>, ps: seq<Producer>, claimed: seq<Message>, done: nat)
    requires n == |slots| > 0 && done < |claimed| <= done + n && WindowOk(n, slots, ps, claimed, done)
    ensures var slots' := slots[Slot(done, n) := slots[Slot(done, n)].(state := Empty)];
      WindowOk(n, slots', ps, claimed, done + 1)
  {
    var slots' := slots[Slot(done, n) := slots[Slot(done, n)].(state := Empty)];
    forall u: nat | done + 1 <= u < |claimed| ensures Delivered(n, slots', claimed, u) || Owned(ps, u) {
      if Slot(u, n) == Slot(done, n) { WindowSlots(n, done, u, done); }
      assert Delivered(n, slots, claimed, u) || Owned(ps, u);
    }
    forall u: nat | |claimed| <= u < done + 1 + n ensures slots'[Slot(u, n)].state == Empty {
      if u == done + n { assert Slot(u, n) == Slot(done, n); }
    }
  }

  /** Every step but a compare-exchange won on a full ring keeps the invariant. */
  lemma StepSafeIff(c: Config, s: Ring, a: Action)
    requires Inv(c, s) && Enabled(c, s, a)
    ensures Inv(c, Step(c, s, a)) <==> RoomyStep(c, s, a)
  {
    match a
    case Begin(_, _) => WaitingStepKeepsInv(c, s, a);
    case LoadTail(_) => WaitingStepKeepsInv(c, s, a);
    case Reload(_) => WaitingStepKeepsInv(c, s, a);
    case CasLose(_) => WaitingStepKeepsInv(c, s, a);
    case CasWin(p) => CasWinSafeIff(c, s, p);
    case Mark(p) => MarkKeepsInv(c, s, p);
    case Copy(p) => CopyKeepsInv(c, s, p);
    case Seal(p) => SealKeepsInv(c, s, p);
    case StartBatch => QuietStepKeepsInv(c, s, a);
    case Scan => ScanKeepsInv(c, s);
    case Read => QuietStepKeepsInv(c, s, a);
    case Emit => EmitKeepsInv(c, s);
    case Clear => ClearKeepsInv(c, s);
    case Publish => QuietStepKeepsInv(c, s, a);
  }

  ghost predicate SafeThroughout(c: Config, s: Ring, acts: seq<Action>)
    requires Legal(c, s, acts)
    decreases |acts|
  {
    Inv(c, s) && (acts == [] || SafeThroughout(c, Step(c, s, acts[0]), acts[1..]))
  }

  /** A run is safe all the way exactly when every win in it finds a free slot. */
  lemma {:induction false} RunSafeIff(c: Config, s: Ring, acts: seq<Action>)
    requires Inv(c, s) && Legal(c, s, acts)
    ensures SafeThroughout(c, s, acts) <==> Roomy(c, s, acts)
    ensures Roomy(c, s, acts) ==> Inv(c, Run(c, s, acts))
    decreases |acts|
  {
    if acts != [] {
      StepSafeIff(c, s, acts[0]);
      if RoomyStep(c, s, acts[0]) {
        RunSafeIff(c, Step(c, s, acts[0]), acts[1..]);
      } else {
        assert !SafeThroughout(c, Step(c, s, acts[0]), acts[1..]);
      }
    }
  }

  /** Runs in which no head grows a whole counter range old are such runs. */
  lemma {:induction false} TimelyRunIsRoomy(c: Config, s: Ring, acts: seq<Action>)
    requires Inv(c, s) && Legal(c, s, acts) && Timely(c, s, acts)
    ensures Roomy(c, s, acts)
    decreases |acts|
  {
    if acts != [] {
      TimelyIsRoomy(c, s, acts[0]);
      StepSafeIff(c, s, acts[0]);
      TimelyRunIsRoomy(c, Step(c, s, acts[0]), acts[1..]);
    }
  }

  // ----- the accounts -----

  lemma MoveKeepsAccounts(s: Ring, s': Ring, p: nat, me: Producer, m: Message)
    requires Accounted(s, m) && p < |s.producers| && s'.producers == s.producers[p := me]
    requires Count(s'.begun, m) - Count(s.begun, m) + Waits(s.producers[p], m)
      == Count(s'.claimed, m) - Count(s.claimed, m) + Count(s'.dropped, m) - Count(s.dropped, m) + Waits(me, m)
    ensures Accounted(s', m)
  {
    InFlightUpdate(s.producers, p, me, m);
  }

  lemma BeginKeepsAccounts(c: Config, s: Ring, p: nat, x: Message, m: Message)
    requires Accounted(s, m) && Enabled(c, s, Begin(p, x))
    ensures Accounted(Step(c, s, Begin(p, x)), m)
  {
    CountAppend(s.begun, x, m);
    MoveKeepsAccounts(s, Step(c, s, Begin(p, x)), p, Looping(x, s.writeHead, |s.claimed|), m);
  }

  lemma LoadTailKeepsAccounts(c: Config, s: Ring, p: nat, m: Message)
    requires Accounted(s, m) && Enabled(c, s, LoadTail(p))
    ensures Accounted(Step(c, s, LoadTail(p)), m)
  {
    var s' := Step(c, s, LoadTail(p));
    CountAppend(s.dropped, s.producers[p].msg, m);
    MoveKeepsAccounts(s, s', p, s'.producers[p], m);
  }

  lemma ClaimKeepsAccounts(c: Config, s: Ring, p: nat, m: Message)
    requires Accounted(s, m) && Enabled(c, s, CasWin(p))
    ensures Accounted(Step(c, s, CasWin(p)), m)
  {
    var s' := Step(c, s, CasWin(p));
    CountAppend(s.claimed, s.producers[p].msg, m);
    MoveKeepsAccounts(s, s', p, s'.producers[p], m);
  }

  lemma StayKeepsAccounts(s: Ring, s': Ring, p: nat, me: Producer, m: Message)
    requires Accounted(s, m) && p < |s.producers| && Waits(me, m) == Waits(s.producers[p], m)
    requires s' == s.(producers := s.producers[p := me], slots := s'.slots)
    ensures Accounted(s', m)
  {
    MoveKeepsAccounts(s, s', p, me, m);
  }

  lemma StepKeepsDrops(c: Config, s: Ring, a: Action)
    requires DropsOk(s) && Enabled(c, s, a)
    ensures DropsOk(Step(c, s, a))
  {}

  lemma ConsumerKeepsAccounts(c: Config, s: Ring, a: Action, m: Message)
    requires Accounted(s, m) && Enabled(c, s, a) && (a.StartBatch? || a.Scan? || a.Read? || a.Emit? || a.Clear? || a.Publish?)
    ensures Accounted(Step(c, s, a), m)
  {}

  /** Wherever a step takes a message, its accounts still balance. */
  lemma StepKeepsAccounts(c: Config, s: Ring, a: Action, m: Message)
    requires Accounted(s, m) && DropsOk(s) && Enabled(c, s, a)
    ensures Accounted(Step(c, s, a), m) && DropsOk(Step(c, s, a))
  {
    StepKeepsDrops(c, s, a);
    match a
    case Begin(p, x) => BeginKeepsAccounts(c, s, p, x, m);
    case LoadTail(p) => LoadTailKeepsAccounts(c, s, p, m);
    case CasWin(p) => ClaimKeepsAccounts(c, s, p, m);
    case Reload(p) => LocalStepKeepsAccounts(c, s, a, p, m);
    case CasLose(p) => LocalStepKeepsAccounts(c, s, a, p, m);
    case Mark(p) => LocalStepKeepsAccounts(c, s, a, p, m);
    case Copy(p) => LocalStepKeepsAccounts(c, s, a, p, m);
    case Seal(p) => LocalStepKeepsAccounts(c, s, a, p, m);
    case _ => ConsumerKeepsAccounts(c, s, a, m);
  }

  lemma LocalStepKeepsAccounts(c: Config, s: Ring, a: Action, p: nat, m: Message)
    requires Accounted(s, m) && Enabled(c, s, a)
    requires a in {Reload(p), CasLose(p), Mark(p), Copy(p), Seal(p)}
    ensures Accounted(Step(c, s, a), m)
  {
    StayKeepsAccounts(s, Step(c, s, a), p, Step(c, s, a).producers[p], m);
  }

  lemma {:induction false} RunKeepsAccounts(c: Config, s: Ring, acts: seq<Action>, m: Message)
    requires Accounted(s, m) && DropsOk(s) && Legal(c, s, acts)
    ensures Accounted(Run(c, s, acts), m) && DropsOk(Run(c, s, acts))
    decreases |acts|
  {
    if acts != [] {
      StepKeepsAccounts(c, s, acts[0], m);
      RunKeepsAccounts(c, Step(c, s, acts[0]), acts[1..], m);
    }
  }

  // ----- the results -----

  lemma InitInv(c: Config, s: Ring)
    requires Init(c, s)
    ensures Inv(c, s)
  {
  }

  /** The tail, the consumer's local tail and the head are in order and within one ring length; no slot
      has two owners, nor an owner while the consumer reads it; what the consumer has read of a
      message is a prefix of the message whose ticket is next; and the messages written out are those
      of the claimed tickets, in CAS order, each once. */
  ghost predicate Orderly(c: Config, e: Ring)
  {
    && e.published <= Done(e) <= |e.claimed| <= e.published + c.Cap()
    && e.writeHead == c.Reg(|e.claimed|) && e.readTail == c.Reg(e.published)
    && |e.slots| == c.Cap()
    && (forall p, q :: 0 <= p < q < |e.producers| && e.producers[p].Owns() && e.producers[q].Owns()
          ==> Slot(e.producers[p].ticket, c.Cap()) != Slot(e.producers[q].ticket, c.Cap()))
    && (e.consumer.Reading? ==> Done(e) < |e.claimed| && e.consumer.words <= e.claimed[Done(e)])
    && (forall p :: e.consumer.Reading? && 0 <= p < |e.producers| && e.producers[p].Owns()
          ==> Slot(e.producers[p].ticket, c.Cap()) != Slot(Done(e), c.Cap()))
    && |e.out| <= |e.claimed| && e.out == e.claimed[..|e.out|]
  }

  /** Ring safety, for any number of producers and every interleaving whose wins find a free slot. */
  lemma RingSafety(c: Config, s: Ring, acts: seq<Action>)
    requires Init(c, s) && Legal(c, s, acts) && Roomy(c, s, acts)
    ensures Orderly(c, Run(c, s, acts))
  {
    InitInv(c, s);
    RunSafeIff(c, s, acts);
    var e := Run(c, s, acts);
    var n := c.Cap();
    forall p, q | 0 <= p < q < |e.producers| && e.producers[p].Owns() && e.producers[q].Owns()
      ensures Slot(e.producers[p].ticket, n) != Slot(e.producers[q].ticket, n)
    {
      var t, u := e.producers[p].ticket, e.producers[q].ticket;
      assert ProducerOk(c, e, e.producers[p]) && ProducerOk(c, e, e.producers[q]);
      if Slot(t, n) == Slot(u, n) { WindowSlots(n, Done(e), t, u); }
    }
    forall p | e.consumer.Reading? && 0 <= p < |e.producers| && e.producers[p].Owns()
      ensures Slot(e.producers[p].ticket, n) != Slot(Done(e), n)
    {
      assert ProducerOk(c, e, e.producers[p]);
    }
  }

  /** No message vanishes: of the calls made with message m, each has a ticket, was dropped,
      or is still running, and a Warn or Error message is never dropped. */
  lemma NothingVanishes(c: Config, s: Ring, acts: seq<Action>, m: Message)
    requires Init(c, s) && Legal(c, s, acts)
    ensures var e := Run(c, s, acts);
      && Count(e.begun, m) == Count(e.claimed, m) + Count(e.dropped, m) + InFlight(e.producers, m)
      && (LevelOf(m) != Info ==> m !in e.dropped)
  {
    NobodyWaits(s.producers, m);
    RunKeepsAccounts(c, s, acts, m);
  }

  /** The test that lets the consumer stop. */
  predicate HasPendingEntries(c: Config, s: Ring)
    requires c.Index(s.readTail) < |s.slots|
  {
    s.slots[c.Index(s.readTail)].state == Ready
  }

  /** With the producers out of the ring and the consumer resting, something is pending exactly when a
      claimed message has not been written out. */
  ghost predicate PendingShows(c: Config, e: Ring)
  {
    && c.Index(e.readTail) < |e.slots|
    && (e.consumer.Resting? && (forall p :: 0 <= p < |e.producers| ==> !e.producers[p].Owns())
        ==> (HasPendingEntries(c, e) <==> e.out != e.claimed))
  }

  lemma DrainedWhenNothingPending(c: Config, s: Ring, acts: seq<Action>)
    requires Init(c, s) && Legal(c, s, acts) && Roomy(c, s, acts)
    ensures PendingShows(c, Run(c, s, acts))
  {
    InitInv(c, s);
    RunSafeIff(c, s, acts);
    var e := Run(c, s, acts);
    IndexOf(c, e.published);
    if e.consumer.Resting? && forall p :: 0 <= p < |e.producers| ==> !e.producers[p].Owns() {
      var d := Done(e);
      if d < |e.claimed| {
        assert !Owned(e.producers, d);
        assert Delivered(c.Cap(), e.slots, e.claimed, d);
      } else {
        assert e.slots[Slot(d, c.Cap())].state == Empty;
      }
    }
  }

  /** Ring safety from what the producers do alone: whenever no compare-exchange is won on a head loaded
      2^w claims earlier, every win finds a free slot and all the above holds. */
  lemma TimelyRingSafety(c: Config, s: Ring, acts: seq<Action>)
    requires Init(c, s) && Legal(c, s, acts) && Timely(c, s, acts)
    ensures Roomy(c, s, acts) && Orderly(c, Run(c, s, acts)) && PendingShows(c, Run(c, s, acts))
  {
    InitInv(c, s);
    TimelyRunIsRoomy(c, s, acts);
    RingSafety(c, s, acts);
    DrainedWhenNothingPending(c, s, acts);
  }

  /** A batch goes on exactly while it has taken fewer than 256 messages and the next slot is ready; then
      it publishes how far it came. */
  lemma BatchEndsIff(c: Config, s: Ring)
    requires Enabled(c, s, Scan)
    ensures Step(c, s, Scan).consumer ==
      if s.consumer.taken >= 256 || s.slots[c.Index(s.consumer.tail)].state != Ready then Leaving(s.consumer.tail)
      else Reading(s.consumer.tail, s.consumer.taken, [])
  {}

  /** Exactly when the fullness test turns a message away: the ring is full, or the producer's
      head lags behind the tail it reads (the subtraction then wraps round), unless it lags so far
      that the difference comes out small again. An Info message is then dropped, any other waits for
      another turn. */
  lemma TurnedAwayIff(c: Config, s: Ring, p: nat)
    requires Inv(c, s) && Enabled(c, s, LoadTail(p))
    ensures var me := s.producers[p];
      !Step(c, s, LoadTail(p)).producers[p].Admitted? <==>
        (|| (me.seen == |s.claimed| == s.published + c.Cap())
         || (me.seen < s.published && 0 < Slot(s.published - me.seen, c.Wrap()) <= c.Wrap() - c.Cap()))
    ensures var me, t := s.producers[p], Step(c, s, LoadTail(p));
      !t.producers[p].Admitted? ==>
        if LevelOf(me.msg) == Info then t.producers[p] == Idle && t.dropped == s.dropped + [me.msg]
        else t.producers[p] == Stalled(me.msg) && t.dropped == s.dropped
  {
    var me := s.producers[p];
    assert ProducerOk(c, s, me);
    CapFits(c);
    if me.seen < s.published {
      RegLag(c, me.seen, s.published);
    } else {
      RegMinus(c, me.seen, s.published);
    }
  }

  /** The unsigned difference of a counter and one ahead of it by any number. */
  lemma {:induction false} RegLag(c: Config, a: nat, b: nat)
    requires a < b
    ensures var lag := Slot(b - a, c.Wrap());
      c.Minus(c.Reg(a), c.Reg(b)) == if lag == 0 then 0 else c.Wrap() - lag
    decreases b
  {
    if b - a < c.Wrap() {
      RegMinus(c, a, b);
    } else if b - a == c.Wrap() {
      assert c.Reg(b) == c.Reg(a);
      assert Slot(c.Wrap(), c.Wrap()) == 0;
    } else {
      assert c.Reg(b) == c.Reg(b - c.Wrap());
      RegLag(c, a, b - c.Wrap());
    }
  }

  /** An Info message can be dropped although the ring is empty: its producer loads the head,
      another message goes all the way through, and the stale head then looks a whole
      counter range ahead of the tail. */
  lemma StaleHeadDropsIntoEmptyRing(c: Config, s: Ring, m: Message) returns (acts: seq<Action>)
    requires Init(c, s) && c.words == 1 && |m| == 1 && LevelOf(m) == Info && |s.producers| == 2
    ensures Legal(c, s, acts)
    ensures var e := Run(c, s, acts);
      e.dropped == [m] && e.published == |e.claimed| == 1 && e.out == e.claimed
      && forall j :: 0 <= j < |e.slots| ==> e.slots[j].state == Empty
  {
    var a1 := StaleEnqueue(c, s, m);
    var s1 := Run(c, s, a1);
    var a2 := StaleDrain(c, s1, m);
    var s2 := Run(c, s1, a2);
    CapFits(c);
    Prepend(c, s2, LoadTail(0), []);
    Concat(c, s1, a2, [LoadTail(0)]);
    Concat(c, s, a1, a2 + [LoadTail(0)]);
    acts := a1 + (a2 + [LoadTail(0)]);
  }

  /** Producer 0 loads the head; producer 1 enqueues m. */
  lemma StaleEnqueue(c: Config, s: Ring, m: Message) returns (acts: seq<Action>)
    requires Init(c, s) && c.words == 1 && |m| == 1 && |s.producers| == 2
    ensures Legal(c, s, acts)
    ensures |s.slots| > 0
    ensures Run(c, s, acts) == s.(writeHead := 1, slots := s.slots[0 := RingSlot(Ready, m)],
      producers := [Looping(m, 0, 0), Idle], claimed := [m], begun := [m, m])
  {
    CapFits(c);
    IndexOf(c, 0);
    var s1 := Step(c, s, Begin(0, m));
    var s2 := Step(c, s1, Begin(1, m));
    var s3 := Step(c, s2, LoadTail(1));
    assert s3 == s.(producers := [Looping(m, 0, 0), Admitted(m, 0, 0)], begun := [m, m]);
    var s4 := Step(c, s3, CasWin(1));
    assert s4 == s.(writeHead := 1, producers := [Looping(m, 0, 0), Claimed(m, 0, 0)], claimed := [m], begun := [m, m]);
    acts := StaleFill(c, s4, m);
    Prepend(c, s3, CasWin(1), acts); acts := [CasWin(1)] + acts;
    Prepend(c, s2, LoadTail(1), acts); acts := [LoadTail(1)] + acts;
    Prepend(c, s1, Begin(1, m), acts); acts := [Begin(1, m)] + acts;
    Prepend(c, s, Begin(0, m), acts); acts := [Begin(0, m)] + acts;
  }

  lemma StaleFill(c: Config, s: Ring, m: Message) returns (acts: seq<Action>)
    requires c.k < c.w && |m| == 1 && |s.slots| == c.Cap() && |s.slots[0].words| == 1
    requires s.producers == [Looping(m, 0, 0), Claimed(m, 0, 0)]
    ensures Legal(c, s, acts)
    ensures Run(c, s, acts) == s.(slots := s.slots[0 := RingSlot(Ready, m)], producers := [Looping(m, 0, 0), Idle])
  {
    IndexOf(c, 0);
    var s1 := Step(c, s, Mark(1));
    var s2 := Step(c, s1, Copy(1));
    var s3 := Step(c, s2, Seal(1));
    assert s3.slots[0].words == m;
    assert s3.slots == s.slots[0 := RingSlot(Ready, m)];
    acts := Chain(c, s, [Mark(1), Copy(1), Seal(1)], s3);
  }

  lemma Chain(c: Config, s: Ring, abc: seq<Action>, e: Ring) returns (acts: seq<Action>)
    requires |abc| == 3 && Enabled(c, s, abc[0]) && Enabled(c, Step(c, s, abc[0]), abc[1])
    requires var t := Step(c, Step(c, s, abc[0]), abc[1]); Enabled(c, t, abc[2]) && Step(c, t, abc[2]) == e
    ensures acts == abc && Legal(c, s, acts) && Run(c, s, acts) == e
  {
    var s1 := Step(c, s, abc[0]);
    var s2 := Step(c, s1, abc[1]);
    Prepend(c, s2, abc[2], []);
    Prepend(c, s1, abc[1], [abc[2]]);
    Prepend(c, s, abc[0], [abc[1]] + [abc[2]]);
    acts := [abc[0]] + ([abc[1]] + [abc[2]]);
  }

  /** The consumer writes m out and gives its slot back. */
  lemma StaleDrain(c: Config, s: Ring, m: Message) returns (acts: seq<Action>)
    requires c.k < c.w && c.words == 1 && |m| == 1 && LevelOf(m) == Info && |s.slots| == c.Cap()
    requires s.consumer.Resting? && s.readTail == 0 && s.out == [] && s.slots[0] == RingSlot(Ready, m)
    requires forall j :: 1 <= j < |s.slots| ==> s.slots[j].state == Empty
    ensures Legal(c, s, acts)
    ensures Run(c, s, acts) == s.(readTail := 1, published := 1, out := [m], slots := s.slots[0 := RingSlot(Empty, m)])
  {
    CapFits(c);
    IndexOf(c, 0);
    IndexOf(c, 1);
    var s1 := Step(c, s, StartBatch);
    var s2 := Step(c, s1, Scan);
    var s3 := Step(c, s2, Read);
    assert s3.consumer == Reading(0, 0, m);
    var s4 := Step(c, s3, Emit);
    assert s4 == s.(consumer := Clearing(0, 0), out := [m]);
    acts := StaleGiveBack(c, s4, m);
    Prepend(c, s3, Emit, acts); acts := [Emit] + acts;
    Prepend(c, s2, Read, acts); acts := [Read] + acts;
    Prepend(c, s1, Scan, acts); acts := [Scan] + acts;
    Prepend(c, s, StartBatch, acts); acts := [StartBatch] + acts;
  }

  lemma StaleGiveBack(c: Config, s: Ring, m: Message) returns (acts: seq<Action>)
    requires c.k < c.w && |s.slots| == c.Cap()
    requires s.consumer == Clearing(0, 0) && s.out == [m] && s.slots[0] == RingSlot(Ready, m)
    requires forall j :: 1 <= j < |s.slots| ==> s.slots[j].state == Empty
    ensures Legal(c, s, acts)
    ensures Run(c, s, acts) == s.(consumer := Resting, readTail := 1, published := 1, slots := s.slots[0 := RingSlot(Empty, m)])
  {
    CapFits(c);
    IndexOf(c, 0);
    IndexOf(c, 1);
    var s5 := Step(c, s, Clear);
    assert s5.consumer == Scanning(1, 1);
    var s6 := Step(c, s5, Scan);
    assert s6.consumer == Leaving(1);
    acts := Chain(c, s, [Clear, Scan, Publish], Step(c, s6, Publish));
  }

  lemma Prepend(c: Config, s: Ring, a: Action, acts: seq<Action>)
    requires Enabled(c, s, a) && Legal(c, Step(c, s, a), acts)
    ensures Legal(c, s, [a] + acts) && Run(c, s, [a] + acts) == Run(c, Step(c, s, a), acts)
  {
    assert ([a] + acts)[1..] == acts;
  }

  lemma {:induction false} Concat(c: Config, s: Ring, a: seq<Action>, b: seq<Action>)
    requires Legal(c, s, a) && Legal(c, Run(c, s, a), b)
    ensures Legal(c, s, a + b) && Run(c, s, a + b) == Run(c, Run(c, s, a), b)
    decreases |a|
  {
    if a == [] {
      assert a + b == b;
    } else {
      Concat(c, Step(c, s, a[0]), a[1..], b);
      Prepend(c, s, a[0], a[1..] + b);
      assert a + b == [a[0]] + (a[1..] + b);
    }
  }

  /** A ring of one slot with a counter of one bit, as start() leaves it, and two producers. */
  const TINY := Config(0, 1, 0)
  const FRESH := Ring(0, 0, [RingSlot(Empty, [])], [Idle, Idle], Resting, [], 0, [], [], [])

  /** Wins do not always find a free slot: a run in which a head loaded 2^w claims ago passes the
      compare-exchange and claims a slot in use. */
  lemma UntimelyCasOverruns() returns (acts: seq<Action>)
    ensures Init(TINY, FRESH) && Legal(TINY, FRESH, acts)
    ensures var e := Run(TINY, FRESH, acts);
      && Inv(TINY, e) && Enabled(TINY, e, CasWin(0)) && !TimelyStep(TINY, e, CasWin(0))
      && |Step(TINY, e, CasWin(0)).claimed| > e.published + TINY.Cap()
  {
    InitInv(TINY, FRESH);
    var a1 := OldHead();
    var s1 := Run(TINY, FRESH, a1);
    var a2 := TinyDrain(s1);
    var s2 := Run(TINY, s1, a2);
    var a3 := TinyClaim(s2);
    Concat(TINY, s1, a2, a3);
    Concat(TINY, FRESH, a1, a2 + a3);
    acts := a1 + (a2 + a3);
    TinyInv(Run(TINY, FRESH, acts));
  }

  lemma TinyInv(e: Ring)
    requires e == Ring(0, 1, [RingSlot(Empty, [])], [Admitted([], 0, 0), Claimed([], 1, 1)], Resting,
                       [[], []], 1, [[]], [], [[], [], []])
    ensures Inv(TINY, e)
  {
    assert TINY.Cap() == 1 && TINY.Wrap() == 2;
    assert Slot(1, 1) == 0 && Slot(2, 1) == 0 && Slot(2, 2) == 0;
    assert e.claimed[..1] == e.out;
    assert Owned(e.producers, 1) by { assert e.producers[1].ticket == 1; }
  }

  /** Producer 0 passes the fullness test; producer 1 enqueues. */
  lemma OldHead() returns (acts: seq<Action>)
    ensures Legal(TINY, FRESH, acts)
    ensures Run(TINY, FRESH, acts)
      == Ring(1, 0, [RingSlot(Ready, [])], [Admitted([], 0, 0), Idle], Resting, [[]], 0, [], [], [[], []])
  {
    assert TINY.Cap() == 1 && TINY.Wrap() == 2;
    IndexOf(TINY, 0);
    var s1 := Step(TINY, FRESH, Begin(0, []));
    var s2 := Step(TINY, s1, LoadTail(0));
    assert s2 == FRESH.(producers := [Admitted([], 0, 0), Idle], begun := [[]]);
    var s3 := Step(TINY, s2, Begin(1, []));
    var s4 := Step(TINY, s3, LoadTail(1));
    assert s4 == FRESH.(producers := [Admitted([], 0, 0), Admitted([], 0, 0)], begun := [[], []]);
    var s5 := Step(TINY, s4, CasWin(1));
    assert s5 == Ring(1, 0, [RingSlot(Empty, [])], [Admitted([], 0, 0), Claimed([], 0, 0)], Resting, [[]], 0, [], [], [[], []]);
    var s6 := Step(TINY, s5, Mark(1));
    var s7 := Step(TINY, s6, Seal(1));
    acts := Chain(TINY, s4, [CasWin(1), Mark(1), Seal(1)], s7);
    Prepend(TINY, s3, LoadTail(1), acts); acts := [LoadTail(1)] + acts;
    Prepend(TINY, s2, Begin(1, []), acts); acts := [Begin(1, [])] + acts;
    Prepend(TINY, s1, LoadTail(0), acts); acts := [LoadTail(0)] + acts;
    Prepend(TINY, FRESH, Begin(0, []), acts); acts := [Begin(0, [])] + acts;
  }

  /** The consumer writes it out and publishes its tail. */
  lemma TinyDrain(s: Ring) returns (acts: seq<Action>)
    requires s == Ring(1, 0, [RingSlot(Ready, [])], [Admitted([], 0, 0), Idle], Resting, [[]], 0, [], [], [[], []])
    ensures Legal(TINY, s, acts)
    ensures Run(TINY, s, acts)
      == Ring(1, 1, [RingSlot(Empty, [])], [Admitted([], 0, 0), Idle], Resting, [[]], 1, [[]], [], [[], []])
  {
    assert TINY.Cap() == 1 && TINY.Wrap() == 2;
    IndexOf(TINY, 0);
    IndexOf(TINY, 1);
    assert Slot(1, 1) == 0;
    var s1 := Step(TINY, s, StartBatch);
    var s2 := Step(TINY, s1, Scan);
    assert s2.consumer == Reading(0, 0, []);
    var s3 := Step(TINY, s2, Emit);
    var s4 := Step(TINY, s3, Clear);
    assert s4.consumer == Scanning(1, 1) && s4.slots == [RingSlot(Empty, [])];
    var s5 := Step(TINY, s4, Scan);
    assert s5.consumer == Leaving(1);
    acts := Chain(TINY, s3, [Clear, Scan, Publish], Step(TINY, s5, Publish));
    Prepend(TINY, s2, Emit, acts); acts := [Emit] + acts;
    Prepend(TINY, s1, Scan, acts); acts := [Scan] + acts;
    Prepend(TINY, s, StartBatch, acts); acts := [StartBatch] + acts;
  }

  /** Producer 1 claims the slot again; the one-bit counter is back where producer 0 read it. */
  lemma TinyClaim(s: Ring) returns (acts: seq<Action>)
    requires s == Ring(1, 1, [RingSlot(Empty, [])], [Admitted([], 0, 0), Idle], Resting, [[]], 1, [[]], [], [[], []])
    ensures Legal(TINY, s, acts)
    ensures Run(TINY, s, acts)
      == Ring(0, 1, [RingSlot(Empty, [])], [Admitted([], 0, 0), Claimed([], 1, 1)], Resting, [[], []], 1, [[]], [], [[], [], []])
  {
    assert TINY.Cap() == 1 && TINY.Wrap() == 2;
    var s1 := Step(TINY, s, Begin(1, []));
    var s2 := Step(TINY, s1, LoadTail(1));
    assert s2.producers[1] == Admitted([], 1, 1);
    var s3 := Step(TINY, s2, CasWin(1));
    acts := Chain(TINY, s, [Begin(1, []), LoadTail(1), CasWin(1)], s3);
  }

  // ----- the logger itself, between interruptions -----

  /** What one pass of enqueue_fixed's loop comes to: a ticket, a dropped message, or (for a
      Warn or Error message on a full ring) another turn after yielding. */
  datatype Outcome = Enqueued | Dropped | MustYield

  /** The ring with one producer and the consumer taking turns. */
  class AsyncLogger {
    const c: Config
    const slots: array<RingSlot>
    var writeHead: nat
    var readTail: nat
    var written: seq<Message>
    var droppedMessages: nat
    var errorCount: nat
    var warnCount: nat
    ghost var claimed: seq<Message>

    ghost function Machine(): Ring
      reads this, slots
    {
      Ring(writeHead, readTail, slots[..], [Idle], Resting, claimed, |written|, written, [], [])
    }

    ghost predicate Valid()
      reads this, slots
    {
      Inv(c, Machine())
    }

    /** The messages enqueued and not yet written out. */
    ghost function Pending(): seq<Message>
      reads this, slots
      requires Valid()
    {
      claimed[|written|..]
    }

    constructor (c: Config)
      requires c.k < c.w
      ensures Valid() && fresh(slots) && this.c == c && Pending() == [] && written == []
      ensures droppedMessages == 0 && errorCount == 0 && warnCount == 0
    {
      this.c := c;
      slots := new RingSlot[Pow2(c.k)](_ => RingSlot(Empty, seq(c.words, _ => TextWord(0))));
      writeHead, readTail := 0, 0;
      written, claimed := [], [];
      droppedMessages, errorCount, warnCount := 0, 0, 0;
      new;
      InitInv(c, Machine());
    }

    method EnqueueFixed(m: Message) returns (r: Outcome)
      requires Valid() && |m| == c.words
      modifies this, slots
      ensures Valid() && written == old(written)
      ensures r == if |old(Pending())| < c.Cap() then Enqueued else if LevelOf(m) == Info then Dropped else MustYield
      ensures Pending() == if r == Enqueued then old(Pending()) + [m] else old(Pending())
      ensures droppedMessages == old(droppedMessages) + if r == Dropped then 1 else 0
      ensures errorCount == old(errorCount) && warnCount == old(warnCount)
    {
      EnqueueKeepsInv(c, Machine(), m);
      ghost var g := Machine();
      var head := writeHead;
      if c.Minus(head, readTail) >= Pow2(c.k) {
        if LevelOf(m) == Info {
          droppedMessages := droppedMessages + 1;
          return Dropped;
        }
        return MustYield;
      }
      writeHead := c.Plus1(head);
      claimed := claimed + [m];
      var j := c.Index(head);
      Fill(j, m);
      assert Machine() == Enqueue(c, g, m);
      return Enqueued;
    }

    /** The slot of a claimed ticket is marked, filled word by word, and marked Ready. */
    method Fill(j: nat, m: Message)
      requires j < slots.Length && |slots[j].words| == |m|
      modifies slots
      ensures slots[..] == old(slots[..])[j := RingSlot(Ready, m)]
    {
      slots[j] := slots[j].(state := Writing);
      var i := 0;
      while i < |m|
        invariant 0 <= i <= |m|
        invariant slots[j].state == Writing && |slots[j].words| == |m| && slots[j].words[..i] == m[..i]
        invariant forall k :: 0 <= k < slots.Length && k != j ==> slots[k] == old(slots[k])
        modifies slots
      {
        slots[j] := slots[j].(words := slots[j].words[i := m[i]]);
        i := i + 1;
      }
      assert slots[j].words == m;
      slots[j] := slots[j].(state := Ready);
    }

    /** Read ready slots in order, 256 at most, without giving them back to the producers yet. */
    method Scan() returns (taken: nat, tail: nat, ghost g: Ring)
      requires Valid()
      modifies this`written, this`errorCount, this`warnCount, slots
      ensures taken <= BATCH && |old(written)| + taken == |written|
      ensures g == Ring(writeHead, readTail, slots[..], [Idle], Scanning(tail, taken), claimed, |old(written)|, written, [], [])
      ensures Inv(c, g) && c.Index(tail) < slots.Length && (taken < BATCH ==> slots[c.Index(tail)].state != Ready)
    {
      taken, tail := 0, readTail;
      g := Machine().(consumer := Scanning(tail, 0));
      BatchStarts(c, Machine(), g);
      ghost var base := |written|;
      while taken < BATCH
        invariant taken <= BATCH && base + taken == |written|
        invariant g == Ring(writeHead, readTail, slots[..], [Idle], Scanning(tail, taken), claimed, base, written, [], [])
        invariant Inv(c, g)
        modifies this`written, this`errorCount, this`warnCount, slots
        decreases BATCH - taken
      {
        ReadyIffPending(c, g);
        var j := c.Index(tail);
        if slots[j].state != Ready {
          break;
        }
        ConsumeKeepsInv(c, g);
        g := Consume(c, g);
        WriteSlot(j);
        tail := c.Plus1(tail);
        taken := taken + 1;
      }
      ReadyIffPending(c, g);
    }

    /** One batch of the consumer: the first 256 pending messages at most, in order. */
    method DrainBatch() returns (taken: nat)
      requires Valid()
      modifies this, slots
      ensures Valid() && droppedMessages == old(droppedMessages)
      ensures taken == if |old(Pending())| < 256 then |old(Pending())| else 256
      ensures written == old(written) + old(Pending())[..taken]
      ensures Pending() == old(Pending())[taken..]
    {
      BatchStarts(c, Machine(), Machine().(consumer := Scanning(readTail, 0)));
      ghost var base := |written|;
      var tail;
      ghost var g;
      taken, tail, g := Scan();
      ReadyIffPending(c, g);
      BatchEnds(c, g);
      Slices(claimed, base, taken);
      readTail := tail;
      assert Machine() == g.(consumer := Resting, readTail := tail, published := |written|);
    }

    method WriteSlot(j: nat)
      requires j < slots.Length
      modifies this`written, this`errorCount, this`warnCount, slots
      ensures written == old(written) + [old(slots[j].words)]
      ensures slots[..] == old(slots[..])[j := old(slots[j]).(state := Empty)]
      ensures errorCount == old(errorCount) + if LevelOf(old(slots[j].words)) == Error then 1 else 0
      ensures warnCount == old(warnCount) + if LevelOf(old(slots[j].words)) == Warn then 1 else 0
    {
      var m := slots[j].words;
      written := written + [m];
      if LevelOf(m) == Error { errorCount := errorCount + 1; }
      else if LevelOf(m) == Warn { warnCount := warnCount + 1; }
      slots[j] := slots[j].(state := Empty);
    }
  }

  lemma BatchStarts(c: Config, s: Ring, s': Ring)
    requires Inv(c, s) && s.consumer.Resting? && s' == s.(consumer := Scanning(s.readTail, 0))
    ensures Inv(c, s')
    ensures |s.out| <= |s.claimed| && s.out == s.claimed[..|s.out|]
  {
    ConsumerFrame(c, s, s');
  }

  lemma Slices(ms: seq<Message>, base: nat, n: nat)
    requires base + n <= |ms|
    ensures ms[..base + n] == ms[..base] + ms[base..][..n] && ms[base + n..] == ms[base..][n..]
  {
  }

  lemma BatchEnds(c: Config, s: Ring)
    requires Inv(c, s) && s.consumer.Scanning?
    ensures Inv(c, s.(consumer := Resting, readTail := s.consumer.tail, published := |s.out|))
    ensures |s.out| <= |s.claimed| && s.out == s.claimed[..|s.out|]
  {
    ConsumerFrame(c, s, s.(consumer := Resting, readTail := s.consumer.tail, published := |s.out|));
  }

  /** A whole enqueue on a ring with room. */
  ghost function Enqueue(c: Config, s: Ring, m: Message): Ring
    requires c.Index(s.writeHead) < |s.slots|
  {
    s.(writeHead := c.Plus1(s.writeHead), slots := s.slots[c.Index(s.writeHead) := RingSlot(Ready, m)],
       claimed := s.claimed + [m])
  }

  lemma EnqueueKeepsInv(c: Config, s: Ring, m: Message)
    requires Inv(c, s) && s.producers == [Idle] && s.consumer.Resting? && |m| == c.words
    ensures c.Index(s.writeHead) < |s.slots| == c.Cap() && |s.slots[c.Index(s.writeHead)].words| == |m|
    ensures c.Minus(s.writeHead, s.readTail) == |s.claimed| - |s.out| <= c.Cap()
    ensures |s.claimed| - |s.out| < c.Cap() ==> Inv(c, Enqueue(c, s, m))
  {
    CapFits(c);
    RegMinus(c, |s.claimed|, |s.out|);
    IndexOf(c, |s.claimed|);
    if |s.claimed| - |s.out| < c.Cap() { RoomToEnqueue(c, s, m); }
  }

  lemma RoomToEnqueue(c: Config, s: Ring, m: Message)
    requires Inv(c, s) && s.producers == [Idle] && s.consumer.Resting? && |m| == c.words
    requires |s.claimed| - |s.out| < c.Cap() && c.Index(s.writeHead) < |s.slots|
    ensures Inv(c, Enqueue(c, s, m))
  {
    var t := |s.claimed|;
    IndexOf(c, t);
    var g1 := s.(producers := [Admitted(m, s.writeHead, t)]);
    WaitingMove(c, s, g1, 0, Admitted(m, s.writeHead, t));
    ClaimKeepsInv(c, g1, 0);
    var g2 := Step(c, g1, CasWin(0));
    OwnerMove(c, g2, 0, Idle, RingSlot(Ready, m));
    assert Enqueue(c, s, m) == g2.(slots := g2.slots[Slot(t, c.Cap()) := RingSlot(Ready, m)], producers := g2.producers[0 := Idle]);
  }

  /** With nobody holding a ticket, the slot at the consumer's tail is Ready exactly when a
      message is pending. */
  lemma ReadyIffPending(c: Config, s: Ring)
    requires Inv(c, s) && s.consumer.Scanning? && s.producers == [Idle]
    ensures c.Index(s.consumer.tail) < |s.slots|
    ensures s.slots[c.Index(s.consumer.tail)].state == Ready <==> |s.out| < |s.claimed|
  {
    IndexOf(c, Done(s));
    if |s.out| < |s.claimed| {
      assert !Owned(s.producers, Done(s));
      assert Delivered(c.Cap(), s.slots, s.claimed, Done(s));
    }
  }

  /** Scan, read every word, write out, clear: one turn of the inner loop. */
  ghost function Consume(c: Config, s: Ring): Ring
    requires s.consumer.Scanning? && c.Index(s.consumer.tail) < |s.slots|
  {
    var j := c.Index(s.consumer.tail);
    s.(out := s.out + [s.slots[j].words], slots := s.slots[j := s.slots[j].(state := Empty)],
       consumer := Scanning(c.Plus1(s.consumer.tail), s.consumer.taken + 1))
  }

  lemma ConsumeKeepsInv(c: Config, s: Ring)
    requires Inv(c, s) && s.consumer.Scanning? && s.producers == [Idle]
    requires s.consumer.taken < BATCH && |s.out| < |s.claimed|
    ensures c.Index(s.consumer.tail) < |s.slots|
    ensures Inv(c, Consume(c, s)) && Consume(c, s).out == s.claimed[..|s.out| + 1]
  {
    var s2 := WordsRead(c, s);
    EmitKeepsInv(c, s2);
    var s3 := Step(c, s2, Emit);
    ClearKeepsInv(c, s3);
    assert Consume(c, s) == Step(c, s3, Clear);
  }

  /** The slot is Ready, and all its words are read. */
  lemma WordsRead(c: Config, s: Ring) returns (e: Ring)
    requires Inv(c, s) && s.consumer.Scanning? && s.producers == [Idle]
    requires s.consumer.taken < BATCH && |s.out| < |s.claimed|
    ensures c.Index(s.consumer.tail) < |s.slots|
    ensures e == s.(consumer := Reading(s.consumer.tail, s.consumer.taken, s.slots[c.Index(s.consumer.tail)].words))
    ensures Inv(c, e) && Enabled(c, e, Emit)
  {
    ReadyIffPending(c, s);
    IndexOf(c, Done(s));
    ScanKeepsInv(c, s);
    e := s.(consumer := Reading(s.consumer.tail, s.consumer.taken, s.slots[c.Index(s.consumer.tail)].words));
    ConsumerFrame(c, Step(c, s, Scan), e);
  }
}
