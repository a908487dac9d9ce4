/** The shared tick cache and a reader that follows it page by page with a cursor. A writer takes a
    sequence number first and stores the tick under it in a second step; a poll is one step. */
module TickCache {
  import opened OrderedMap

  datatype Stamped<T> = Stamped(tick: T, seqNo: nat)

  /** One line of a page: the sequence number, the instrument and its tick. */
  datatype Item<K, T> = Item(seqNo: nat, key: K, tick: T)

  datatype State<K, T> = State(
    entries: map<K, Stamped<T>>, counter: nat,
    pending: seq<Item<K, T>>,   // updates that hold a number but are not stored yet
    mirror: map<K, T>, cursor: nat,
    delivered: seq<nat>)        // the numbers of all updates ever delivered

  datatype Action<K, T> =
    | Take(key: K, tick: T)              // update: fetch_add on the counter
    | Store(which: nat)                  // update: the locked store
    | Poll(limit: nat, page: seq<Item<K, T>>)

  const DEFAULT_LIMIT := 2000

  function Limit(limit: nat): (n: nat)
    ensures n > 0 && (limit > 0 ==> n == limit) && (limit == 0 ==> n == 2000)
  {
    if limit == 0 then DEFAULT_LIMIT else limit
  }

  /** An entry changed after the cursor, as a line. */
  predicate Changed<K(==), T(==)>(entries: map<K, Stamped<T>>, since: nat, line: Item<K, T>)
  {
    line.key in entries && entries[line.key] == Stamped(line.tick, line.seqNo) && line.seqNo > since
  }

  /** A page holds changed entries by rising number, skips none that is older than its last, and
      is full unless it holds them all. */
  ghost predicate IsPage<K(!new), T(!new)>(entries: map<K, Stamped<T>>, since: nat, limit: nat, page: seq<Item<K, T>>)
  {
    && |page| <= Limit(limit)
    && (forall i :: 0 <= i < |page| ==> Changed(entries, since, page[i]))
    && (forall i, j :: 0 <= i < j < |page| ==> page[i].seqNo < page[j].seqNo)
    && (forall line :: Changed(entries, since, line) && line !in page ==>
          |page| == Limit(limit) && page[|page| - 1].seqNo < line.seqNo)
  }

  function Latest<K, T>(since: nat, page: seq<Item<K, T>>): nat
  {
    if page == [] then since else page[|page| - 1].seqNo
  }

  function Apply<K, T>(mirror: map<K, T>, page: seq<Item<K, T>>): map<K, T>
    decreases |page|
  {
    if page == [] then mirror else Apply(mirror[page[0].key := page[0].tick], page[1..])
  }

  function Numbers<K, T>(page: seq<Item<K, T>>): (ns: seq<nat>)
    ensures |ns| == |page| && forall i :: 0 <= i < |page| ==> ns[i] == page[i].seqNo
  {
    seq(|page|, i requires 0 <= i < |page| => page[i].seqNo)
  }

  ghost predicate Enabled<K(!new), T(!new)>(s: State<K, T>, a: Action<K, T>)
  {
    match a
    case Take(_, _) => true
    case Store(which) => which < |s.pending|
    case Poll(limit, page) => IsPage(s.entries, s.cursor, limit, page)
  }

  ghost function Step<K(!new), T(!new)>(s: State<K, T>, a: Action<K, T>): State<K, T>
    requires Enabled(s, a)
  {
    match a
    case Take(key, tick) =>
      s.(counter := s.counter + 1, pending := s.pending + [Item(s.counter + 1, key, tick)])
    case Store(which) =>
      var line := s.pending[which];
      s.(entries := s.entries[line.key := Stamped(line.tick, line.seqNo)],
         pending := s.pending[..which] + s.pending[which + 1..])
    case Poll(limit, page) =>
      s.(mirror := Apply(s.mirror, page), cursor := Latest(s.cursor, page), delivered := s.delivered + Numbers(page))
  }

  ghost function Init<K(!new), T(!new)>(): State<K, T>
  {
    State(map[], 0, [], map[], 0, [])
  }

  /** A store that the cursor has not overtaken: what a single updating thread guarantees. */
  ghost predicate Fresh<K(!new), T(!new)>(s: State<K, T>, a: Action<K, T>)
  {
    a.Store? && a.which < |s.pending| ==> s.cursor < s.pending[a.which].seqNo
  }

  /** One update at a time. */
  predicate OneWriter<K, T>(s: State<K, T>, a: Action<K, T>)
  {
    a.Take? ==> s.pending == []
  }

  ghost predicate Legal<K(!new), T(!new)>(s: State<K, T>, acts: seq<Action<K, T>>)
    decreases |acts|
  {
    acts == [] || (Enabled(s, acts[0]) && Legal(Step(s, acts[0]), acts[1..]))
  }

  ghost function Run<K(!new), T(!new)>(s: State<K, T>, acts: seq<Action<K, T>>): State<K, T>
    requires Legal(s, acts)
    decreases |acts|
  {
    if acts == [] then s else Run(Step(s, acts[0]), acts[1..])
  }

  ghost predicate AllFresh<K(!new), T(!new)>(s: State<K, T>, acts: seq<Action<K, T>>)
    requires Legal(s, acts)
    decreases |acts|
  {
    acts == [] || (Fresh(s, acts[0]) && AllFresh(Step(s, acts[0]), acts[1..]))
  }

  ghost predicate AlwaysOneWriter<K(!new), T(!new)>(s: State<K, T>, acts: seq<Action<K, T>>)
    requires Legal(s, acts)
    decreases |acts|
  {
    acts == [] || (OneWriter(s, acts[0]) && AlwaysOneWriter(Step(s, acts[0]), acts[1..]))
  }

  // ----- the invariant -----

  /** Every instrument at or behind the cursor is mirrored as it is. */
  ghost predicate Mirrored<K(!new), T(!new)>(s: State<K, T>)
  {
    forall k :: k in s.entries && s.entries[k].seqNo <= s.cursor ==> k in s.mirror && s.mirror[k] == s.entries[k].tick
  }

  /** What every step keeps, however many writers there are. */
  ghost predicate Sound<K(!new), T(!new)>(s: State<K, T>)
  {
    && (forall k :: k in s.mirror ==> k in s.entries)
    && (forall i, j :: 0 <= i < j < |s.delivered| ==> s.delivered[i] < s.delivered[j])
    && (s.delivered != [] ==> s.delivered[|s.delivered| - 1] == s.cursor)
    && (s.delivered == [] ==> s.cursor == 0)
    && (forall n :: n in s.delivered ==> n > 0)
    && s.cursor <= s.counter && (forall k :: k in s.entries ==> s.entries[k].seqNo <= s.counter)
    && (forall i :: 0 <= i < |s.pending| ==> s.pending[i].seqNo <= s.counter)
  }

  ghost predicate Inv<K(!new), T(!new)>(s: State<K, T>)
  {
    Mirrored(s) && Sound(s)
  }

  lemma {:induction false} ApplyPage<K(!new), T(!new)>(mirror: map<K, T>, page: seq<Item<K, T>>, entries: map<K, Stamped<T>>, since: nat)
    requires forall i :: 0 <= i < |page| ==> Changed(entries, since, page[i])
    ensures forall k :: k in Apply(mirror, page) <==> k in mirror || (exists i :: 0 <= i < |page| && page[i].key == k)
    ensures forall i :: 0 <= i < |page| ==> page[i].key in Apply(mirror, page) && Apply(mirror, page)[page[i].key] == page[i].tick
    ensures forall k :: k in mirror && (forall i :: 0 <= i < |page| ==> page[i].key != k) ==> Apply(mirror, page)[k] == mirror[k]
    decreases |page|
  {
    if page != [] {
      var next := mirror[page[0].key := page[0].tick];
      ApplyPage(next, page[1..], entries, since);
      forall i | 0 <= i < |page|
        ensures page[i].key in Apply(mirror, page) && Apply(mirror, page)[page[i].key] == page[i].tick
      {
        if i > 0 {
          assert page[1..][i - 1] == page[i];
        } else if exists j :: 1 <= j < |page| && page[j].key == page[0].key {
          var j :| 1 <= j < |page| && page[j].key == page[0].key;
          assert page[1..][j - 1] == page[j];
        }
      }
      forall k ensures k in Apply(mirror, page) <==> k in mirror || (exists i :: 0 <= i < |page| && page[i].key == k) {
        if i :| 0 <= i < |page| && page[i].key == k && i > 0 {
          assert page[1..][i - 1].key == k;
        }
      }
    }
  }

  lemma {:induction false} PollKeepsInv<K(!new), T(!new)>(s: State<K, T>, limit: nat, page: seq<Item<K, T>>)
    requires Inv(s) && IsPage(s.entries, s.cursor, limit, page)
    ensures Inv(Step(s, Poll(limit, page)))
  {
    var t := Step(s, Poll(limit, page));
    ApplyPage(s.mirror, page, s.entries, s.cursor);
    forall k | k in t.entries && t.entries[k].seqNo <= t.cursor
      ensures k in t.mirror && t.mirror[k] == t.entries[k].tick
    {
      var line := Item(t.entries[k].seqNo, k, t.entries[k].tick);
      if line in page {
        var i :| 0 <= i < |page| && page[i] == line;
      } else if line.seqNo > s.cursor {
        assert Changed(s.entries, s.cursor, line);
      } else if i :| 0 <= i < |page| && page[i].key == k {
        assert Changed(s.entries, s.cursor, page[i]);
      }
    }
    PollKeepsSound(s, limit, page);
  }

  lemma {:induction false} PollKeepsSound<K(!new), T(!new)>(s: State<K, T>, limit: nat, page: seq<Item<K, T>>)
    requires Sound(s) && IsPage(s.entries, s.cursor, limit, page)
    ensures Sound(Step(s, Poll(limit, page)))
  {
    var t := Step(s, Poll(limit, page));
    ApplyPage(s.mirror, page, s.entries, s.cursor);
    forall k | k in t.mirror ensures k in t.entries {
      if k !in s.mirror {
        var i :| 0 <= i < |page| && page[i].key == k;
        assert Changed(s.entries, s.cursor, page[i]);
      }
    }
    DeliveredRises(s, page);
  }

  lemma DeliveredRises<K(!new), T(!new)>(s: State<K, T>, page: seq<Item<K, T>>)
    requires Sound(s) && (forall i :: 0 <= i < |page| ==> Changed(s.entries, s.cursor, page[i]))
    requires forall i, j :: 0 <= i < j < |page| ==> page[i].seqNo < page[j].seqNo
    ensures var d := s.delivered + Numbers(page);
      && (forall i, j :: 0 <= i < j < |d| ==> d[i] < d[j])
      && (d != [] ==> d[|d| - 1] == Latest(s.cursor, page))
      && (d == [] ==> Latest(s.cursor, page) == 0) && (forall n :: n in d ==> n > 0)
      && Latest(s.cursor, page) <= s.counter
  {
    var d := s.delivered + Numbers(page);
    forall i, j | 0 <= i < j < |d| ensures d[i] < d[j] {
      if i < |s.delivered| <= j {
        assert d[i] <= s.cursor;
        assert Changed(s.entries, s.cursor, page[j - |s.delivered|]);
      }
    }
    if page != [] { assert Changed(s.entries, s.cursor, page[|page| - 1]); }
  }

  lemma {:induction false} StepKeepsInv<K(!new), T(!new)>(s: State<K, T>, a: Action<K, T>)
    requires Inv(s) && Enabled(s, a) && Fresh(s, a)
    ensures Inv(Step(s, a))
  {
    match a
    case Take(_, _) =>
    case Store(_) =>
    case Poll(limit, page) => PollKeepsInv(s, limit, page);
  }

  lemma {:induction false} RunKeepsInv<K(!new), T(!new)>(s: State<K, T>, acts: seq<Action<K, T>>)
    requires Inv(s) && Legal(s, acts) && AllFresh(s, acts)
    ensures Inv(Run(s, acts))
    decreases |acts|
  {
    if acts != [] {
      StepKeepsInv(s, acts[0]);
      RunKeepsInv(Step(s, acts[0]), acts[1..]);
    }
  }

  lemma {:induction false} RunKeepsSound<K(!new), T(!new)>(s: State<K, T>, acts: seq<Action<K, T>>)
    requires Sound(s) && Legal(s, acts)
    ensures Sound(Run(s, acts))
    decreases |acts|
  {
    if acts != [] {
      match acts[0] {
        case Take(_, _) =>
        case Store(_) =>
        case Poll(limit, page) => PollKeepsSound(s, limit, page);
      }
      RunKeepsSound(Step(s, acts[0]), acts[1..]);
    }
  }

  // ----- exactly when -----

  /** A step that cannot part mirror and cache: anything but a store that the cursor has overtaken
      and that brings another tick than the one mirrored. */
  ghost predicate Harmless<K(!new), T(!new)>(s: State<K, T>, a: Action<K, T>)
  {
    a.Store? && a.which < |s.pending| ==>
      var line := s.pending[a.which];
      s.cursor < line.seqNo || (line.key in s.mirror && s.mirror[line.key] == line.tick)
  }

  lemma {:induction false} StepMirroredIff<K(!new), T(!new)>(s: State<K, T>, a: Action<K, T>)
    requires Inv(s) && Enabled(s, a)
    ensures Mirrored(Step(s, a)) <==> Harmless(s, a)
    ensures Harmless(s, a) ==> Inv(Step(s, a))
  {
    if a.Store? {
      var line := s.pending[a.which];
      assert Step(s, a).entries[line.key] == Stamped(line.tick, line.seqNo);
    } else {
      StepKeepsInv(s, a);
    }
  }

  ghost predicate MirroredThroughout<K(!new), T(!new)>(s: State<K, T>, acts: seq<Action<K, T>>)
    requires Legal(s, acts)
    decreases |acts|
  {
    Mirrored(s) && (acts == [] || MirroredThroughout(Step(s, acts[0]), acts[1..]))
  }

  ghost predicate AllHarmless<K(!new), T(!new)>(s: State<K, T>, acts: seq<Action<K, T>>)
    requires Legal(s, acts)
    decreases |acts|
  {
    acts == [] || (Harmless(s, acts[0]) && AllHarmless(Step(s, acts[0]), acts[1..]))
  }

  /** With any number of writers: the mirror agrees with the cache up to the cursor all the way
      exactly when no store comes in late with a tick the reader does not have. */
  lemma {:induction false} MirroredThroughoutIff<K(!new), T(!new)>(s: State<K, T>, acts: seq<Action<K, T>>)
    requires Inv(s) && Legal(s, acts)
    ensures MirroredThroughout(s, acts) <==> AllHarmless(s, acts)
    decreases |acts|
  {
    if acts != [] {
      StepMirroredIff(s, acts[0]);
      if Harmless(s, acts[0]) {
        MirroredThroughoutIff(Step(s, acts[0]), acts[1..]);
      } else if acts[1..] != [] {
        assert !Mirrored(Step(s, acts[0]));
      }
    }
  }

  // ----- one writer is enough -----

  ghost predicate Single<K(!new), T(!new)>(s: State<K, T>)
  {
    && |s.pending| <= 1 && s.cursor <= s.counter
    && (forall k :: k in s.entries ==> s.entries[k].seqNo <= s.counter)
    && (forall i :: 0 <= i < |s.pending| ==> s.pending[i].seqNo == s.counter)
    && (s.pending != [] ==> s.cursor < s.counter && forall k :: k in s.entries ==> s.entries[k].seqNo < s.counter)
  }

  lemma {:induction false} SingleStep<K(!new), T(!new)>(s: State<K, T>, a: Action<K, T>)
    requires Single(s) && Enabled(s, a) && OneWriter(s, a)
    ensures Fresh(s, a) && Single(Step(s, a))
  {
    match a
    case Take(_, _) =>
    case Store(_) =>
    case Poll(limit, page) =>
      if page != [] { assert Changed(s.entries, s.cursor, page[|page| - 1]); }
  }

  lemma {:induction false} OneWriterIsFresh<K(!new), T(!new)>(s: State<K, T>, acts: seq<Action<K, T>>)
    requires Single(s) && Legal(s, acts) && AlwaysOneWriter(s, acts)
    ensures AllFresh(s, acts)
    decreases |acts|
  {
    if acts != [] {
      SingleStep(s, acts[0]);
      OneWriterIsFresh(Step(s, acts[0]), acts[1..]);
    }
  }

  // ----- what the reader is promised -----

  /** However updates and polls interleave, with any page limits and any number of writers: no update is
      delivered twice; the mirror agrees with the cache on everything up to the cursor all the way
      exactly when no store comes in late with a tick the reader does not have; and with updates one
      at a time it does. */
  lemma {:induction false} MirrorAgrees<K(!new), T(!new)>(acts: seq<Action<K, T>>)
    requires Legal(Init<K, T>(), acts)
    ensures var s := Run(Init<K, T>(), acts);
      && (forall i, j :: 0 <= i < j < |s.delivered| ==> s.delivered[i] < s.delivered[j])
      && (MirroredThroughout(Init(), acts) <==> AllHarmless(Init(), acts))
      && (AlwaysOneWriter(Init(), acts) ==> Mirrored(s))
  {
    RunKeepsSound(Init<K, T>(), acts);
    MirroredThroughoutIff(Init<K, T>(), acts);
    if AlwaysOneWriter(Init<K, T>(), acts) {
      OneWriterIsFresh(Init<K, T>(), acts);
      RunKeepsInv(Init<K, T>(), acts);
    }
  }

  /** The reader has what the cache has. */
  ghost predicate CaughtUp<K(!new), T(!new)>(s: State<K, T>)
  {
    s.mirror.Keys == s.entries.Keys && forall k :: k in s.entries ==> s.mirror[k] == s.entries[k].tick
  }

  lemma {:induction false} ShortPageComplete<K(!new), T(!new)>(s: State<K, T>, limit: nat, page: seq<Item<K, T>>)
    requires Inv(s) && IsPage(s.entries, s.cursor, limit, page) && |page| < Limit(limit)
    ensures CaughtUp(Step(s, Poll(limit, page)))
  {
    PollKeepsInv(s, limit, page);
    var t := Step(s, Poll(limit, page));
    forall k | k in t.entries ensures k in t.mirror && t.mirror[k] == t.entries[k].tick {
      var line := Item(t.entries[k].seqNo, k, t.entries[k].tick);
      if line.seqNo > s.cursor {
        assert Changed(s.entries, s.cursor, line);
        var i :| 0 <= i < |page| && page[i] == line;
      }
    }
  }

  /** A page short of its limit leaves the mirror equal to the cache, exactly when nothing up to the
      cursor had been missed before. */
  lemma {:induction false} ShortPageCatchesUp<K(!new), T(!new)>(acts: seq<Action<K, T>>, limit: nat, page: seq<Item<K, T>>)
    requires Legal(Init<K, T>(), acts)
    requires Enabled(Run(Init(), acts), Poll(limit, page)) && |page| < Limit(limit)
    ensures CaughtUp(Step(Run(Init(), acts), Poll(limit, page))) <==> Mirrored(Run(Init(), acts))
  {
    var s := Run(Init<K, T>(), acts);
    RunKeepsSound(Init<K, T>(), acts);
    if Mirrored(s) {
      ShortPageComplete(s, limit, page);
    } else {
      var k :| k in s.entries && s.entries[k].seqNo <= s.cursor && !(k in s.mirror && s.mirror[k] == s.entries[k].tick);
      assert Missed(s, k);
      StaysMissed(s, Poll(limit, page), k);
    }
  }

  // ----- missed for good -----

  /** The reader does not have the tick of an instrument that its cursor has passed. */
  ghost predicate Missed<K(!new), T(!new)>(s: State<K, T>, k: K)
  {
    k in s.entries && s.entries[k].seqNo <= s.cursor && !(k in s.mirror && s.mirror[k] == s.entries[k].tick)
  }

  ghost predicate Stores<K(!new), T(!new)>(s: State<K, T>, a: Action<K, T>, k: K)
  {
    a.Store? && a.which < |s.pending| && s.pending[a.which].key == k
  }

  ghost predicate NeverStores<K(!new), T(!new)>(s: State<K, T>, acts: seq<Action<K, T>>, k: K)
    requires Legal(s, acts)
    decreases |acts|
  {
    acts == [] || (!Stores(s, acts[0], k) && NeverStores(Step(s, acts[0]), acts[1..], k))
  }

  lemma {:induction false} StaysMissed<K(!new), T(!new)>(s: State<K, T>, a: Action<K, T>, k: K)
    requires Missed(s, k) && Enabled(s, a) && !Stores(s, a, k)
    ensures Missed(Step(s, a), k) && (k in Step(s, a).mirror <==> k in s.mirror)
  {
    if a.Poll? {
      ApplyPage(s.mirror, a.page, s.entries, s.cursor);
      forall i | 0 <= i < |a.page| ensures a.page[i].key != k { assert Changed(s.entries, s.cursor, a.page[i]); }
      if a.page != [] { assert Changed(s.entries, s.cursor, a.page[|a.page| - 1]); }
    }
  }

  /** What is missed once is missed for good: however often the reader polls, until the instrument is
      updated again. */
  lemma {:induction false} MissedForGood<K(!new), T(!new)>(s: State<K, T>, acts: seq<Action<K, T>>, k: K)
    requires Missed(s, k) && Legal(s, acts) && NeverStores(s, acts, k)
    ensures Missed(Run(s, acts), k) && (k in Run(s, acts).mirror <==> k in s.mirror)
    decreases |acts|
  {
    if acts != [] {
      StaysMissed(s, acts[0], k);
      MissedForGood(Step(s, acts[0]), acts[1..], k);
    }
  }

  const OVERTAKING: seq<Item<int, int>> := [Item(2, 20, 0)]

  lemma OvertakingIsPage()
    ensures IsPage(map[20 := Stamped(0, 2)], 0, 0, OVERTAKING) && Apply(map[], OVERTAKING) == map[20 := 0]
  {
    var entries := map[20 := Stamped(0, 2)];
    forall line | Changed(entries, 0, line) ensures line in OVERTAKING { assert line == OVERTAKING[0]; }
    assert OVERTAKING[1..] == [];
  }

  lemma OvertakingEnd(s: State<int, int>)
    requires s == State(map[20 := Stamped(0, 2)], 2, [Item(1, 10, 0)], map[], 0, [])
    ensures var acts := [Poll(0, OVERTAKING), Store(0)];
      Legal(s, acts) && Missed(Run(s, acts), 10) && 10 !in Run(s, acts).mirror
  {
    var acts := [Poll(0, OVERTAKING), Store(0)];
    OvertakingIsPage();
    var t := Step(s, acts[0]);
    var u := Step(t, acts[1]);
    assert t.cursor == 2 && u.entries[10] == Stamped(0, 1) && 10 !in u.mirror;
    assert acts[1..] == [acts[1]] && acts[1..][1..] == [];
    assert Legal(u, []) && Run(u, []) == u;
    assert Legal(t, acts[1..]) && Run(t, acts[1..]) == u;
  }

  lemma {:induction false} RunStep<K(!new), T(!new)>(s: State<K, T>, a: Action<K, T>, rest: seq<Action<K, T>>)
    requires Enabled(s, a) && Legal(Step(s, a), rest)
    ensures Legal(s, [a] + rest) && Run(s, [a] + rest) == Run(Step(s, a), rest)
    ensures AlwaysOneWriter(s, [a] + rest) <==> OneWriter(s, a) && AlwaysOneWriter(Step(s, a), rest)
  {
    assert ([a] + rest)[1..] == rest;
  }

  /** With two writers the promise fails: a number is taken first and stored last, and from then on no
      poll ever delivers that instrument, until it is updated again. */
  lemma TwoWritersLoseATick() returns (acts: seq<Action<int, int>>)
    ensures Legal(Init<int, int>(), acts) && !AlwaysOneWriter(Init(), acts)
    ensures var e := Run(Init<int, int>(), acts);
      && Missed(e, 10) && 10 !in e.mirror
      && (forall more :: Legal(e, more) && NeverStores(e, more, 10) ==> 10 !in Run(e, more).mirror)
  {
    var rest := [Poll(0, OVERTAKING), Store(0)];
    var s0 := Init<int, int>();
    var s1 := Step(s0, Take(10, 0));
    var s2 := Step(s1, Take(20, 0));
    var s3 := Step(s2, Store(1));
    assert s3.pending == [Item(1, 10, 0)];
    OvertakingEnd(s3);
    RunStep(s2, Store(1), rest);
    RunStep(s1, Take(20, 0), [Store(1)] + rest);
    RunStep(s0, Take(10, 0), [Take(20, 0)] + ([Store(1)] + rest));
    acts := [Take(10, 0)] + ([Take(20, 0)] + ([Store(1)] + rest));
    var e := Run(s0, acts);
    forall more | Legal(e, more) && NeverStores(e, more, 10) ensures 10 !in Run(e, more).mirror {
      MissedForGood(e, more, 10);
    }
  }

  // ----- the class -----

  predicate Less(a: nat, b: nat) { a < b }

  /** The changed entries seen so far, ordered by number as the sort leaves them. */
  ghost predicate Collected<K(!new), T(!new)>(entries: map<K, Stamped<T>>, since: nat, seen: set<K>, m: Map<nat, Item<K, T>>)
  {
    && Ascending(Less, m)
    && (forall i :: 0 <= i < |m| ==> m[i].key == m[i].value.seqNo && m[i].value.key in seen && Changed(entries, since, m[i].value))
    && (forall k :: k in seen && k in entries && entries[k].seqNo > since ==>
          exists i :: 0 <= i < |m| && m[i].value == Item(entries[k].seqNo, k, entries[k].tick))
  }

  lemma LessIsStrictOrder()
    ensures StrictOrder(Less)
  {}

  lemma {:induction false} CollectMore<K(!new), T(!new)>(
      entries: map<K, Stamped<T>>, since: nat, seen: set<K>, m: Map<nat, Item<K, T>>, line: Item<K, T>, r: Map<nat, Item<K, T>>)
    requires Collected(entries, since, seen, m) && Changed(entries, since, line) && line.key !in seen
    requires forall i, j :: i in entries && j in entries && entries[i].seqNo == entries[j].seqNo ==> i == j
    requires r == Put(Less, m, line.seqNo, line)
    ensures Collected(entries, since, seen + {line.key}, r)
  {
    LessIsStrictOrder();
    PutKeepsOrder(Less, m, line.seqNo, line);
    PutHolds(Less, m, line.seqNo, line);
    forall i | 0 <= i < |r|
      ensures r[i].key == r[i].value.seqNo && r[i].value.key in seen + {line.key} && Changed(entries, since, r[i].value)
    {
      assert r[i] in r;
    }
    forall k | k in seen + {line.key} && k in entries && entries[k].seqNo > since
      ensures exists i :: 0 <= i < |r| && r[i].value == Item(entries[k].seqNo, k, entries[k].tick)
    {
      var there := Item(entries[k].seqNo, k, entries[k].tick);
      if k in seen {
        var i :| 0 <= i < |m| && m[i].value == there;
        assert m[i] in m && m[i].key != line.seqNo;
        assert m[i] in r;
      } else {
        assert Entry(line.seqNo, line) in r;
      }
    }
  }

  lemma {:induction false} PageOf<K(!new), T(!new)>(
      entries: map<K, Stamped<T>>, since: nat, limit: nat, m: Map<nat, Item<K, T>>, page: seq<Item<K, T>>)
    requires Collected(entries, since, entries.Keys, m)
    requires |page| <= |m| && |page| <= Limit(limit) && (|page| == |m| || |page| == Limit(limit))
    requires forall j :: 0 <= j < |page| ==> page[j] == m[j].value
    ensures IsPage(entries, since, limit, page)
  {
    forall i, j | 0 <= i < j < |page| ensures page[i].seqNo < page[j].seqNo {
      assert Goes(Less, m[i].key, m[j].key);
    }
    forall line | Changed(entries, since, line) && line !in page
      ensures |page| == Limit(limit) && page[|page| - 1].seqNo < line.seqNo
    {
      var i :| 0 <= i < |m| && m[i].value == line;
      assert forall j :: 0 <= j < |page| ==> page[j] in page && page[j] == m[j].value;
      assert Goes(Less, m[|page| - 1].key, m[i].key);
    }
  }

  ghost predicate Split<K(!new)>(left: set<K>, seen: set<K>, all: set<K>)
  {
    forall k :: (k in all <==> k in left || k in seen) && !(k in left && k in seen)
  }

  lemma MoveOne<K(!new)>(left: set<K>, seen: set<K>, all: set<K>, k: K)
    requires Split(left, seen, all) && k in left
    ensures Split(left - {k}, seen + {k}, all)
  {}

  lemma NothingLeft<K(!new)>(seen: set<K>, all: set<K>)
    requires Split({}, seen, all)
    ensures seen == all
  {}

  class TickDataManager<K(==, !new), T(!new)> {
    var entries: map<K, Stamped<T>>
    var seqCounter: nat

    /** No two entries share a number, and none is beyond the counter. */
    ghost predicate Valid()
      reads this
    {
      && (forall k :: k in entries ==> 0 < entries[k].seqNo <= seqCounter)
      && (forall j, k :: j in entries && k in entries && entries[j].seqNo == entries[k].seqNo ==> j == k)
    }

    constructor ()
      ensures Valid() && entries == map[] && seqCounter == 0
    {
      entries, seqCounter := map[], 0;
    }

    method Update(key: K, tick: T)
      requires Valid()
      modifies this
      ensures Valid() && seqCounter == old(seqCounter) + 1
      ensures entries == old(entries)[key := Stamped(tick, seqCounter)]
    {
      seqCounter := seqCounter + 1;
      entries := entries[key := Stamped(tick, seqCounter)];
    }

    /** The changed entries, sorted by number. */
    static method Collect(entries: map<K, Stamped<T>>, since: nat) returns (changed: Map<nat, Item<K, T>>)
      requires forall i, j :: i in entries && j in entries && entries[i].seqNo == entries[j].seqNo ==> i == j
      ensures Collected(entries, since, entries.Keys, changed)
    {
      changed := [];
      var left: set<K> := entries.Keys;
      ghost var seen: set<K> := {};
      while left != {}
        invariant Split(left, seen, entries.Keys) && Collected(entries, since, seen, changed)
        decreases |left|
      {
        var k :| k in left;
        changed := Visit(entries, since, seen, changed, k);
        MoveOne(left, seen, entries.Keys, k);
        left, seen := left - {k}, seen + {k};
      }
      NothingLeft(seen, entries.Keys);
    }

    /** The first so many of the changed entries, and the number of the last one sent. */
    method Emit(since: nat, limit: nat, changed: Map<nat, Item<K, T>>) returns (page: seq<Item<K, T>>, latest: nat)
      requires forall i :: 0 <= i < |changed| ==> changed[i].key == changed[i].value.seqNo
      ensures |page| <= |changed| && |page| <= Limit(limit) && (|page| == |changed| || |page| == Limit(limit))
      ensures forall j :: 0 <= j < |page| ==> page[j] == changed[j].value
      ensures latest == Latest(since, page)
    {
      page, latest := [], since;
      var i := 0;
      while i < |changed| && |page| < Limit(limit)
        invariant 0 <= i == |page| <= |changed| && |page| <= Limit(limit)
        invariant forall j :: 0 <= j < i ==> page[j] == changed[j].value
        invariant latest == Latest(since, page)
      {
        page, latest := page + [changed[i].value], changed[i].key;
        i := i + 1;
      }
    }

    method ChangedSince(since: nat, limit: nat) returns (page: seq<Item<K, T>>, latest: nat)
      requires Valid()
      ensures IsPage(entries, since, limit, page) && latest == Latest(since, page)
    {
      var changed := Collect(entries, since);
      page, latest := Emit(since, limit, changed);
      PageOf(entries, since, limit, changed, page);
    }

    /** One entry of the map: kept if it changed, in its place in the order the sort makes. */
    static method Visit(entries: map<K, Stamped<T>>, since: nat, ghost seen: set<K>, m: Map<nat, Item<K, T>>, k: K)
      returns (r: Map<nat, Item<K, T>>)
      requires k in entries && k !in seen && Collected(entries, since, seen, m)
      requires forall i, j :: i in entries && j in entries && entries[i].seqNo == entries[j].seqNo ==> i == j
      ensures Collected(entries, since, seen + {k}, r)
    {
      var e := entries[k];
      if e.seqNo <= since { return m; }
      var line := Item(e.seqNo, k, e.tick);
      r := Put(Less, m, line.seqNo, line);
      CollectMore(entries, since, seen, m, line, r);
    }
  }
}
