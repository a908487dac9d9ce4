/** Snapshots assembled from query responses: rows arrive one callback at a time, tagged with the id
    of the request they answer, while other threads may start new queries at any moment. */
module QuerySnapshot {
  import opened Bytes
  import opened Options
  import opened OrderedMap

  /** One kind of query. An id is taken from a counter, then installed under the lock as the one being
      assembled, and only then is the request sent. A callback adds its row in one locked section and
      completes the snapshot in a second. A row that is not kept (no row at all, or an order that is no
      longer active) is None. For the statements: which ids have been answered to the end, the
      kept rows received for each, and the snapshots handed on. */
  datatype State<R> = State(
    taken: nat, installed: set<nat>,
    pendingId: nat, pending: seq<R>, completing: Option<nat>,
    answered: set<nat>, received: map<nat, seq<R>>, applied: seq<Snapshot<R>>)

  datatype Snapshot<R> = Snapshot(id: nat, rows: seq<R>)

  datatype Action<R> =
    | Take
    | Install(id: nat)
    | Row(id: nat, row: Option<R>, last: bool)
    | Complete

  /** The response callbacks come one after the other, each only for a request that was sent, and
      none after the last one of its request. */
  predicate Enabled<R>(s: State<R>, a: Action<R>)
  {
    match a
    case Take => true
    case Install(id) => 0 < id <= s.taken && id !in s.installed
    case Row(id, _, _) => s.completing.None? && id in s.installed && id !in s.answered
    case Complete => s.completing.Some?
  }

  function RowsOf<R>(s: State<R>, id: nat): seq<R>
  {
    if id in s.received then s.received[id] else []
  }

  function Step<R>(s: State<R>, a: Action<R>): State<R>
    requires Enabled(s, a)
  {
    match a
    case Take => s.(taken := s.taken + 1)
    case Install(id) => s.(installed := s.installed + {id}, pendingId := id, pending := [])
    case Row(id, row, last) =>
      var noted := s.(answered := if last then s.answered + {id} else s.answered,
                      received := if row.Some? then s.received[id := RowsOf(s, id) + [row.value]] else s.received);
      if row.Some? && id != s.pendingId then noted
      else noted.(pending := if row.Some? then s.pending + [row.value] else s.pending,
                  completing := if last then Some(id) else None)
    case Complete =>
      var id := s.completing.value;
      if id != s.pendingId then s.(completing := None)
      else s.(pendingId := 0, pending := [], completing := None, applied := s.applied + [Snapshot(id, s.pending)])
  }

  function Init<R>(): State<R>
  {
    State(0, {}, 0, [], None, {}, map[], [])
  }

  predicate Legal<R>(s: State<R>, acts: seq<Action<R>>)
    decreases |acts|
  {
    acts == [] || (Enabled(s, acts[0]) && Legal(Step(s, acts[0]), acts[1..]))
  }

  function Run<R>(s: State<R>, acts: seq<Action<R>>): State<R>
    requires Legal(s, acts)
    decreases |acts|
  {
    if acts == [] then s else Run(Step(s, acts[0]), acts[1..])
  }

  // ----- the invariant -----

  predicate Applied<R>(s: State<R>, id: nat)
  {
    exists i :: 0 <= i < |s.applied| && s.applied[i].id == id
  }

  ghost predicate Inv<R>(s: State<R>)
  {
    && (forall id :: id in s.installed ==> 0 < id <= s.taken)
    && (forall id :: id in s.received || id in s.answered ==> id in s.installed)
    && (s.pendingId == 0 ==> s.pending == [])
    && (s.pendingId != 0 ==> s.pendingId in s.installed && s.pending == RowsOf(s, s.pendingId) && !Applied(s, s.pendingId))
    && (s.completing.Some? ==> s.completing.value in s.answered && s.completing.value != 0)
    && (forall i :: 0 <= i < |s.applied| ==>
          s.applied[i].id in s.answered && s.applied[i].rows == RowsOf(s, s.applied[i].id))
    && (forall i, j :: 0 <= i < j < |s.applied| ==> s.applied[i].id != s.applied[j].id)
  }

  lemma RowKeepsInv<R>(s: State<R>, id: nat, row: Option<R>, last: bool)
    requires Inv(s) && Enabled(s, Row(id, row, last))
    ensures Inv(Step(s, Row(id, row, last)))
  {
    var t := Step(s, Row(id, row, last));
    assert t.applied == s.applied;
    forall i | 0 <= i < |t.applied| ensures t.applied[i].rows == RowsOf(t, t.applied[i].id) {
      assert s.applied[i].id != id;
    }
  }

  lemma CompleteKeepsInv<R>(s: State<R>)
    requires Inv(s) && Enabled(s, Complete)
    ensures Inv(Step(s, Complete))
  {}

  lemma StepKeepsInv<R>(s: State<R>, a: Action<R>)
    requires Inv(s) && Enabled(s, a)
    ensures Inv(Step(s, a))
  {
    match a
    case Take =>
    case Install(_) =>
    case Row(id, row, last) => RowKeepsInv(s, id, row, last);
    case Complete => CompleteKeepsInv(s);
  }

  lemma {:induction false} RunKeepsInv<R>(s: State<R>, acts: seq<Action<R>>)
    requires Inv(s) && Legal(s, acts)
    ensures Inv(Run(s, acts))
    decreases |acts|
  {
    if acts != [] {
      StepKeepsInv(s, acts[0]);
      RunKeepsInv(Step(s, acts[0]), acts[1..]);
    }
  }

  /** However queries, late rows and stale rows interleave: every snapshot handed on is built from
      exactly the rows of its own request, all of them and in order, and no request yields two. */
  lemma {:induction false} SnapshotIntegrity<R>(acts: seq<Action<R>>)
    requires Legal(Init<R>(), acts)
    ensures var s := Run(Init(), acts);
      && (forall i :: 0 <= i < |s.applied| ==> s.applied[i].id in s.answered && s.applied[i].rows == RowsOf(s, s.applied[i].id))
      && (forall i, j :: 0 <= i < j < |s.applied| ==> s.applied[i].id != s.applied[j].id)
  {
    RunKeepsInv(Init<R>(), acts);
  }

  /** A response answered to the end while its request is the one being assembled is handed on. */
  lemma CompletedIsApplied<R>(s: State<R>)
    requires Inv(s) && s.completing == Some(s.pendingId)
    ensures var t := Step(s, Complete); Applied(t, s.pendingId)
  {
    var t := Step(s, Complete);
    assert t.applied[|s.applied|].id == s.pendingId;
  }

  /** The callbacks of a whole response, the last row marked as such; one without rows is a single
      callback without one. */
  function Answer<R>(id: nat, rows: seq<R>): seq<Action<R>>
    decreases |rows|
  {
    if rows == [] then [Row(id, None, true), Complete]
    else if |rows| == 1 then [Row(id, Some(rows[0]), true), Complete]
    else [Row(id, Some(rows[0]), false)] + Answer(id, rows[1..])
  }

  lemma {:induction false} AnswerRuns<R>(s: State<R>, id: nat, rows: seq<R>)
    requires s.completing.None? && id in s.installed && id !in s.answered && s.pendingId == id
    ensures Legal(s, Answer(id, rows)) && Run(s, Answer(id, rows)).applied == s.applied + [Snapshot(id, s.pending + rows)]
    decreases |rows|
  {
    var acts: seq<Action<R>> := Answer(id, rows);
    var t := Step(s, acts[0]);
    if |rows| <= 1 {
      assert rows != [] ==> rows == [rows[0]];
      assert t.pending == s.pending + rows;
      assert acts[1..] == [Complete] && acts[1..][1..] == [];
      assert Legal(t, [Complete]) && Run(t, [Complete]) == Step(t, Complete);
    } else {
      assert acts[1..] == Answer(id, rows[1..]);
      AnswerRuns(t, id, rows[1..]);
      assert s.pending + [rows[0]] + rows[1..] == s.pending + rows;
    }
  }

  /** Undisturbed, a query's response comes through whole: from any state between responses, a request
      installed and answered hands on one snapshot more, of just its rows. */
  lemma {:induction false} ResponseComesThrough<R>(s: State<R>, id: nat, rows: seq<R>)
    requires Inv(s) && s.completing.None? && Enabled(s, Install(id))
    ensures Legal(s, [Install(id)] + Answer(id, rows))
    ensures Run(s, [Install(id)] + Answer(id, rows)).applied == s.applied + [Snapshot(id, rows)]
  {
    var t := Step(s, Install(id));
    var acts := [Install(id)] + Answer(id, rows);
    assert acts[1..] == Answer(id, rows);
    AnswerRuns(t, id, rows);
    assert [] + rows == rows;
  }

  // ----- positions: rows added up per instrument and side -----

  /** A response row; the key names the instrument and the side. */
  datatype PositionRow = PositionRow(key: seq<octet>, position: int, today: int, yesterday: int, profit: real, margin: real, cost: real)

  datatype Total = Total(position: int, today: int, yesterday: int, profit: real, margin: real, cost: real)

  const NO_TOTAL := Total(0, 0, 0, 0.0, 0.0, 0.0)

  type Table = Map<seq<octet>, Total>

  function Plus(t: Total, r: PositionRow): Total
  {
    Total(t.position + r.position, t.today + r.today, t.yesterday + r.yesterday,
          t.profit + r.profit, t.margin + r.margin, t.cost + r.cost)
  }

  function AddRow(t: Table, r: PositionRow): Table
  {
    Put(Below, t, r.key, Plus(GetOr(t, r.key, NO_TOTAL), r))
  }

  function TableOf(rows: seq<PositionRow>): Table
    decreases |rows|
  {
    if rows == [] then [] else AddRow(TableOf(rows[..|rows| - 1]), rows[|rows| - 1])
  }

  /** An amount of the rows of one key, added up. */
  function Count(amount: PositionRow -> int, rows: seq<PositionRow>, key: seq<octet>): int
    decreases |rows|
  {
    if rows == [] then 0
    else Count(amount, rows[..|rows| - 1], key) + if rows[|rows| - 1].key == key then amount(rows[|rows| - 1]) else 0
  }

  function Money(amount: PositionRow -> real, rows: seq<PositionRow>, key: seq<octet>): real
    decreases |rows|
  {
    if rows == [] then 0.0
    else Money(amount, rows[..|rows| - 1], key) + if rows[|rows| - 1].key == key then amount(rows[|rows| - 1]) else 0.0
  }

  function PositionIn(r: PositionRow): int { r.position }
  function TodayIn(r: PositionRow): int { r.today }
  function YesterdayIn(r: PositionRow): int { r.yesterday }
  function ProfitIn(r: PositionRow): real { r.profit }
  function MarginIn(r: PositionRow): real { r.margin }
  function CostIn(r: PositionRow): real { r.cost }

  /** The rows of one key, each field added up by itself. */
  function TotalOf(rows: seq<PositionRow>, key: seq<octet>): Total
  {
    Total(Count(PositionIn, rows, key), Count(TodayIn, rows, key), Count(YesterdayIn, rows, key),
          Money(ProfitIn, rows, key), Money(MarginIn, rows, key), Money(CostIn, rows, key))
  }

  lemma {:induction false} TotalSnoc(rows: seq<PositionRow>, r: PositionRow, key: seq<octet>)
    ensures TotalOf(rows + [r], key) == if r.key == key then Plus(TotalOf(rows, key), r) else TotalOf(rows, key)
  {
    assert (rows + [r])[..|rows|] == rows;
  }

  datatype Position = Position(key: seq<octet>, total: Total, average: real)

  /** The positions of a table: every key with a positive volume, at its average cost. */
  function Positions(t: Table): seq<Position>
    decreases |t|
  {
    if t == [] then []
    else if t[0].value.position > 0
    then [Position(t[0].key, t[0].value, t[0].value.cost / t[0].value.position as real)] + Positions(t[1..])
    else Positions(t[1..])
  }

  lemma {:induction false} TableAddsUp(rows: seq<PositionRow>, key: seq<octet>)
    ensures Ascending(Below, TableOf(rows)) && GetOr(TableOf(rows), key, NO_TOTAL) == TotalOf(rows, key)
    decreases |rows|
  {
    if rows != [] {
      var front, r := rows[..|rows| - 1], rows[|rows| - 1];
      assert rows == front + [r];
      TableAddsUp(front, key);
      TableAddsUp(front, r.key);
      AddRowAt(TableOf(front), r, key);
      TotalSnoc(front, r, key);
    }
  }

  lemma AddRowAt(t: Table, r: PositionRow, key: seq<octet>)
    requires Ascending(Below, t)
    ensures Ascending(Below, AddRow(t, r))
    ensures GetOr(AddRow(t, r), key, NO_TOTAL) == if key == r.key then Plus(GetOr(t, key, NO_TOTAL), r) else GetOr(t, key, NO_TOTAL)
  {
    BelowIsStrictOrder();
    PutKeepsOrder(Below, t, r.key, Plus(GetOr(t, r.key, NO_TOTAL), r));
    GetPut(Below, t, r.key, Plus(GetOr(t, r.key, NO_TOTAL), r), key);
  }

  /** A list of positions has one for the key. */
  ghost predicate Shows(ps: seq<Position>, key: seq<octet>)
  {
    exists i :: 0 <= i < |ps| && ps[i].key == key
  }

  /** Whatever a list of positions has for the key carries the total, at its average cost. */
  ghost predicate Carries(ps: seq<Position>, key: seq<octet>, t: Total)
  {
    forall i :: 0 <= i < |ps| && ps[i].key == key ==>
      ps[i].total == t && ps[i].average * t.position as real == t.cost
  }

  lemma ShowsFirst(p: Position, rest: seq<Position>, key: seq<octet>, t: Total)
    ensures Shows([p] + rest, key) <==> p.key == key || Shows(rest, key)
    ensures Carries([p] + rest, key, t) <==>
      (p.key == key ==> p.total == t && p.average * t.position as real == t.cost) && Carries(rest, key, t)
  {
    var ps := [p] + rest;
    assert ps[0] == p && forall i :: 0 <= i < |rest| ==> ps[i + 1] == rest[i];
    assert forall i :: 0 < i < |ps| ==> ps[i] == rest[i - 1];
  }

  lemma {:induction false} NotShown(t: Table, key: seq<octet>)
    requires forall i :: 0 <= i < |t| ==> t[i].key != key
    ensures Get(t, key) == None && !Shows(Positions(t), key)
    decreases |t|
  {
    if t != [] {
      NotShown(t[1..], key);
      if t[0].value.position > 0 { ShowsFirst(Positions(t)[0], Positions(t[1..]), key, NO_TOTAL); }
    }
  }

  lemma {:induction false} PositionsOfTable(less: (seq<octet>, seq<octet>) -> bool, t: Table, key: seq<octet>)
    requires Ascending(less, t)
    ensures Shows(Positions(t), key) <==> GetOr(t, key, NO_TOTAL).position > 0
    ensures Carries(Positions(t), key, GetOr(t, key, NO_TOTAL))
    decreases |t|
  {
    if t != [] {
      PositionsOfTable(less, t[1..], key);
      if t[0].key == key {
        forall i | 0 <= i < |t[1..]| ensures t[1..][i].key != key { assert Goes(less, t[0].key, t[i + 1].key); }
        NotShown(t[1..], key);
      }
      if t[0].value.position > 0 {
        Average(t[0].value.cost, t[0].value.position);
        ShowsFirst(Positions(t)[0], Positions(t[1..]), key, GetOr(t, key, NO_TOTAL));
      }
    }
  }

  /** No key is listed twice. */
  lemma {:induction false} ListedOnce(less: (seq<octet>, seq<octet>) -> bool, t: Table)
    requires Ascending(less, t)
    ensures forall i, j :: 0 <= i < j < |Positions(t)| ==> Positions(t)[i].key != Positions(t)[j].key
    decreases |t|
  {
    if t != [] {
      var ps, rest := Positions(t), Positions(t[1..]);
      ListedOnce(less, t[1..]);
      forall i | 0 <= i < |t[1..]| ensures t[1..][i].key != t[0].key { assert Goes(less, t[0].key, t[i + 1].key); }
      NotShown(t[1..], t[0].key);
      if t[0].value.position > 0 {
        forall i, j | 0 <= i < j < |ps| ensures ps[i].key != ps[j].key { assert ps[j] == rest[j - 1]; }
      }
    }
  }

  lemma Average(cost: real, n: int)
    requires n > 0
    ensures (cost / n as real) * n as real == cost
  {}

  /** The positions of a snapshot, key by key: there is one, and one only, exactly where the rows add up
      to a positive volume, it carries their sums, and average price times volume is their cost. */
  lemma PositionsAddUp(rows: seq<PositionRow>, key: seq<octet>)
    ensures var ps := Positions(TableOf(rows)); forall i, j :: 0 <= i < j < |ps| ==> ps[i].key != ps[j].key
    ensures Shows(Positions(TableOf(rows)), key) <==> TotalOf(rows, key).position > 0
    ensures Carries(Positions(TableOf(rows)), key, TotalOf(rows, key))
  {
    TableAddsUp(rows, key);
    PositionsOfTable(Below, TableOf(rows), key);
    ListedOnce(Below, TableOf(rows));
  }

  // ----- the gateway's two queries -----

  class PositionQuery {
    var requestId: nat
    var pendingId: nat
    var pending: Table
    /** The rows behind the table. */
    ghost var rows: seq<PositionRow>

    ghost predicate Valid()
      reads this
    {
      pending == TableOf(rows) && pendingId <= requestId
    }

    constructor ()
      ensures Valid() && requestId == 0 && pendingId == 0 && rows == []
    {
      requestId, pendingId, pending, rows := 0, 0, [], [];
    }

    /** Start over under a new id. */
    method QueryPosition() returns (id: nat)
      requires Valid()
      modifies this
      ensures Valid() && id == requestId == pendingId == old(requestId) + 1 && rows == []
    {
      requestId := requestId + 1;
      id := requestId;
      pending, rows, pendingId := [], [], id;
    }

    /** A response callback: nothing happens for another request; the last row hands on the positions
        of exactly the rows taken since the query began. */
    method OnRspQryInvestorPosition(row: Option<PositionRow>, id: nat, last: bool)
      returns (applied: bool, snapshot: seq<Position>)
      requires Valid()
      modifies this
      ensures Valid() && requestId == old(requestId)
      ensures applied == (last && id == old(pendingId))
      ensures var all := if row.Some? && id == old(pendingId) then old(rows) + [row.value] else old(rows);
        if applied then snapshot == Positions(TableOf(all)) && rows == [] && pendingId == 0
        else rows == all && pendingId == old(pendingId)
    {
      applied, snapshot := false, [];
      if row.Some? {
        if id != pendingId { return; }
        TableSnoc(rows, row.value);
        pending, rows := AddRow(pending, row.value), rows + [row.value];
      }
      if !last || id != pendingId { return; }
      applied := true;
      snapshot := Collect(pending);
      pending, rows, pendingId := [], [], 0;
    }

    method Collect(table: Table) returns (snapshot: seq<Position>)
      ensures snapshot == Positions(table)
    {
      snapshot := [];
      var rest := table;
      while rest != []
        invariant snapshot + Positions(rest) == Positions(table)
      {
        var t := rest[0].value;
        if t.position > 0 { snapshot := snapshot + [Position(rest[0].key, t, t.cost / t.position as real)]; }
        rest := rest[1..];
      }
    }
  }

  lemma TableSnoc(rows: seq<PositionRow>, r: PositionRow)
    ensures TableOf(rows + [r]) == AddRow(TableOf(rows), r)
  {
    assert (rows + [r])[..|rows|] == rows;
  }

  datatype Status = Pending | PartTraded | AllTraded | Cancelled | Error

  class OrderQuery<O> {
    var requestId: nat
    var pendingId: nat
    var pending: seq<O>

    constructor ()
      ensures requestId == 0 && pendingId == 0 && pending == []
    {
      requestId, pendingId, pending := 0, 0, [];
    }

    method QueryActiveOrders() returns (id: nat)
      modifies this
      ensures id == requestId == pendingId == old(requestId) + 1 && pending == []
    {
      requestId := requestId + 1;
      id := requestId;
      pending, pendingId := [], id;
    }

    /** Only orders still active are collected; a response of another request changes nothing. */
    method OnRspQryOrder(row: Option<O>, status: Status, id: nat, last: bool) returns (applied: bool, snapshot: seq<O>)
      modifies this
      ensures requestId == old(requestId) && applied == (last && id == old(pendingId))
      ensures var active := row.Some? && (status == Pending || status == PartTraded);
        var all := if active && id == old(pendingId) then old(pending) + [row.value] else old(pending);
        if applied then snapshot == all && pending == [] && pendingId == 0
        else pending == all && pendingId == old(pendingId)
    {
      applied, snapshot := false, [];
      if row.Some? && (status == Pending || status == PartTraded) {
        if id != pendingId { return; }
        pending := pending + [row.value];
      }
      if !last || id != pendingId { return; }
      applied, snapshot := true, pending;
      pending, pendingId := [], 0;
    }
  }
}
