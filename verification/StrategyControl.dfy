/** Strategy states, the automatic pause after repeated errors, and the shortcuts the tick path takes
    around the lock. One thread; the controller's own lock is not modelled. */
module StrategyControl {
  import opened Bytes
  import opened Texts

  datatype RunState = Running | Paused | Stopped

  datatype Controller = Controller(
    states: map<text, RunState>, errors: map<text, nat>, nonRunning: int, hasError: bool, global: RunState)

  const INITIAL := Controller(map[], map[], 0, false, Running)

  /** "default" */
  const DEFAULT: text := [0x64, 0x65, 0x66, 0x61, 0x75, 0x6C, 0x74]

  const MAX_ERRORS := 10

  /** The key a strategy id is looked up under. */
  function Target(id: text): text
  {
    if Trim(id) == [] then DEFAULT else Trim(id)
  }

  function StateOf(c: Controller, id: text): RunState
  {
    if Target(id) in c.states then c.states[Target(id)] else c.global
  }

  function SetState(c: Controller, id: text, state: RunState): Controller
  {
    var key := Target(id);
    if key !in c.states then c
    else
      var old' := c.states[key];
      c.(states := c.states[key := state],
         nonRunning := c.nonRunning + (if old' == Running && state != Running then 1
                                       else if old' != Running && state == Running then -1 else 0))
  }

  function InitState(c: Controller, id: text, initial: RunState): Controller
  {
    if id in c.states then c
    else c.(states := c.states[id := initial], nonRunning := c.nonRunning + (if initial != Running then 1 else 0))
  }

  function RemoveState(c: Controller, id: text): Controller
  {
    if id !in c.states then c
    else c.(states := c.states - {id}, nonRunning := c.nonRunning - (if c.states[id] != Running then 1 else 0))
  }

  function ErrorCount(c: Controller, id: text): nat
  {
    if id in c.errors then c.errors[id] else 0
  }

  /** One more consecutive error; from the tenth on each one pauses the strategy. */
  function OnError(c: Controller, id: text): Controller
  {
    var counted := c.(errors := c.errors[id := ErrorCount(c, id) + 1], hasError := true);
    if ErrorCount(c, id) + 1 >= MAX_ERRORS
    then counted.(states := c.states[id := Paused], nonRunning := c.nonRunning + 1)
    else counted
  }

  /** Forget a strategy's errors; without any errors at all the lock is not even taken. */
  function ResetErrors(c: Controller, id: text): Controller
  {
    if !c.hasError then c
    else c.(errors := c.errors - {id}, hasError := c.errors - {id} != map[])
  }

  datatype Action =
    | Set(id: text, state: RunState)
    | Init(id: text, state: RunState)
    | Remove(id: text)
    | Fail(id: text)
    | Reset(id: text)
    | SetGlobal(state: RunState)

  function Step(c: Controller, a: Action): Controller
  {
    match a
    case Set(id, state) => SetState(c, id, state)
    case Init(id, state) => InitState(c, id, state)
    case Remove(id) => RemoveState(c, id)
    case Fail(id) => OnError(c, id)
    case Reset(id) => ResetErrors(c, id)
    case SetGlobal(state) => c.(global := state)
  }

  function Run(c: Controller, acts: seq<Action>): Controller
    decreases |acts|
  {
    if acts == [] then c else Run(Step(c, acts[0]), acts[1..])
  }

  // ----- what a lookup finds afterwards -----

  /** Setting a state takes effect for every id of the same key, if that key is tracked, and for no
      other. */
  lemma SetTakesEffect(c: Controller, id: text, state: RunState, other: text)
    ensures StateOf(SetState(c, id, state), other)
      == if Target(other) == Target(id) && Target(id) in c.states then state else StateOf(c, other)
    ensures SetState(c, id, state).states.Keys == c.states.Keys
  {}

  /** A strategy new to the controller begins in the state given; one already tracked keeps its own. */
  lemma InitTakesEffect(c: Controller, id: text, initial: RunState, other: text)
    ensures StateOf(InitState(c, id, initial), other)
      == if Target(other) == id && id !in c.states then initial else StateOf(c, other)
    ensures InitState(c, id, initial).states.Keys == c.states.Keys + {id}
  {}

  /** A strategy removed is answered for by the global state again; the others keep their own. */
  lemma RemoveTakesEffect(c: Controller, id: text, other: text)
    ensures StateOf(RemoveState(c, id), other) == if Target(other) == id then c.global else StateOf(c, other)
    ensures RemoveState(c, id).states.Keys == c.states.Keys - {id}
  {}

  /** An error counts against its own strategy; the tenth in a row, and every one after it, pauses it. */
  lemma ErrorTakesEffect(c: Controller, id: text, other: text)
    ensures ErrorCount(OnError(c, id), other) == ErrorCount(c, other) + if other == id then 1 else 0
    ensures StateOf(OnError(c, id), other)
      == if Target(other) == id && ErrorCount(c, id) >= 9 then Paused else StateOf(c, other)
  {}

  /** A reset forgets the errors of its own strategy, whichever path it takes, and changes no state. */
  lemma ResetTakesEffect(c: Controller, id: text, other: text)
    requires Inv(c)
    ensures ErrorCount(ResetErrors(c, id), other) == if other == id then 0 else ErrorCount(c, other)
    ensures StateOf(ResetErrors(c, id), other) == StateOf(c, other)
  {}

  // ----- the counters -----

  function Halted(states: map<text, RunState>): set<text>
  {
    set k | k in states && states[k] != Running
  }

  /** The counter never falls short of the strategies not running, so it never underflows, and the
      error flag is up exactly when there are errors. */
  predicate Inv(c: Controller)
  {
    |Halted(c.states)| <= c.nonRunning && (c.hasError <==> c.errors != map[])
  }

  lemma HaltedPut(states: map<text, RunState>, k: text, state: RunState)
    ensures Halted(states[k := state]) == if state != Running then Halted(states) + {k} else Halted(states) - {k}
    ensures k in Halted(states) <==> k in states && states[k] != Running
    ensures Halted(states - {k}) == Halted(states) - {k}
  {}

  /** Setting or removing one state changes the number of halted strategies by what it changes there. */
  lemma HaltedCount(states: map<text, RunState>, k: text, state: RunState)
    ensures var before := if k in states && states[k] != Running then 1 else 0;
      && |Halted(states[k := state])| == |Halted(states)| - before + (if state != Running then 1 else 0)
      && |Halted(states - {k})| == |Halted(states)| - before
  {
    var halted := Halted(states);
    HaltedPut(states, k, state);
    assert |halted + {k}| == |halted| + if k in halted then 0 else 1;
    assert |halted - {k}| == |halted| - if k in halted then 1 else 0;
  }

  /** A pause on errors of a strategy that is not running as it is. */
  predicate Repeated(c: Controller, a: Action)
  {
    a.Fail? && ErrorCount(c, a.id) + 1 >= MAX_ERRORS && a.id in c.states && c.states[a.id] != Running
  }

  /** By how much the counter runs ahead. */
  function Ahead(c: Controller): int
  {
    c.nonRunning - |Halted(c.states)|
  }

  /** Every operation keeps the counter in step with the strategies that are not running, but for a
      repeated pause, which it counts once more. */
  lemma StepAhead(c: Controller, a: Action)
    ensures Ahead(Step(c, a)) == Ahead(c) + if Repeated(c, a) then 1 else 0
  {
    match a
    case Set(id, state) => HaltedCount(c.states, Target(id), state);
    case Init(id, state) => HaltedCount(c.states, id, state);
    case Remove(id) => HaltedCount(c.states, id, Running);
    case Fail(id) => HaltedCount(c.states, id, Paused);
    case Reset(_) =>
    case SetGlobal(_) =>
  }

  lemma StepKeepsInv(c: Controller, a: Action)
    requires Inv(c)
    ensures Inv(Step(c, a))
  {
    StepAhead(c, a);
  }

  function Repeats(c: Controller, acts: seq<Action>): nat
    decreases |acts|
  {
    if acts == [] then 0 else (if Repeated(c, acts[0]) then 1 else 0) + Repeats(Step(c, acts[0]), acts[1..])
  }

  /** In every run the counter is the number of tracked strategies not running plus the number of
      repeated pauses; so it is exact when and only when there was none. */
  lemma {:induction false} CounterCounts(c: Controller, acts: seq<Action>)
    ensures Ahead(Run(c, acts)) == Ahead(c) + Repeats(c, acts)
    decreases |acts|
  {
    if acts != [] {
      StepAhead(c, acts[0]);
      CounterCounts(Step(c, acts[0]), acts[1..]);
    }
  }

  lemma {:induction false} RunKeepsInv(c: Controller, acts: seq<Action>)
    requires Inv(c)
    ensures Inv(Run(c, acts))
    decreases |acts|
  {
    if acts != [] {
      StepKeepsInv(c, acts[0]);
      RunKeepsInv(Step(c, acts[0]), acts[1..]);
    }
  }

  /** In every run: the counter is at least the number of tracked strategies that are not running,
      and skipping the lock never loses a reset. */
  lemma {:induction false} CountersSound(acts: seq<Action>, id: text)
    ensures var c := Run(INITIAL, acts);
      && 0 <= |Halted(c.states)| <= c.nonRunning
      && ResetErrors(c, id).errors == c.errors - {id}
  {
    assert Halted(map[]) == {};
    RunKeepsInv(INITIAL, acts);
  }

  /** The counter may run ahead: pausing a paused strategy again counts it twice. */
  lemma CounterRunsAhead(c: Controller, id: text)
    requires Inv(c) && id in c.states && c.states[id] == Paused && ErrorCount(c, id) >= MAX_ERRORS
    ensures var d := OnError(c, id); d.states == c.states && d.nonRunning == c.nonRunning + 1
  {
    assert c.states[id := Paused] == c.states;
  }

  // ----- dispatching a tick -----

  /** A strategy in line for a tick: its id, whether it takes this tick at all, and whether its
      handler throws. */
  datatype Strategy = Strategy(id: text, handles: bool, throws: bool)

  /** The key the dispatcher looks a strategy up under. */
  function DispatchId(id: text): text
  {
    if id == [] then DEFAULT else id
  }

  datatype Dispatched = Dispatched(c: Controller, served: seq<text>)

  function Served(c: Controller, s: Strategy): Controller
  {
    if s.throws then OnError(c, s.id) else ResetErrors(c, s.id)
  }

  /** A strategy is served if it takes the tick and, where that is checked, is running. */
  predicate Takes(c: Controller, s: Strategy, check: bool)
  {
    s.handles && !(check && StateOf(c, DispatchId(s.id)) != Running)
  }

  /** The dispatch loop, with or without the per-strategy check. */
  function Dispatch(c: Controller, line: seq<Strategy>, check: bool): Dispatched
    decreases |line|
  {
    if line == [] then Dispatched(c, [])
    else
      var s := line[0];
      if !Takes(c, s, check) then Dispatch(c, line[1..], check)
      else
        var rest := Dispatch(Served(c, s), line[1..], check);
        rest.(served := [s.id] + rest.served)
  }

  /** The strategies of a line have different names, as adding them sees to. */
  predicate Distinct(line: seq<Strategy>)
  {
    forall i, j :: 0 <= i < j < |line| ==> line[i].id != line[j].id
  }

  predicate AllRunning(c: Controller, line: seq<Strategy>)
  {
    forall i :: 0 <= i < |line| && line[i].handles ==> StateOf(c, DispatchId(line[i].id)) == Running
  }

  /** Strategy s is about to be paused under the very key that t is looked up by. */
  predicate Clash(c: Controller, s: Strategy, t: Strategy)
  {
    && s.handles && s.throws && ErrorCount(c, s.id) + 1 >= MAX_ERRORS
    && t.handles && Target(DispatchId(t.id)) == s.id
  }

  predicate NoClash(c: Controller, line: seq<Strategy>)
  {
    forall i, j :: 0 <= i < j < |line| ==> !Clash(c, line[i], line[j])
  }

  /** How many strategies take the tick. */
  function Takers(line: seq<Strategy>): nat
    decreases |line|
  {
    if line == [] then 0 else (if line[0].handles then 1 else 0) + Takers(line[1..])
  }

  /** The ids of those that do, in line order. */
  function TakerIds(line: seq<Strategy>): (ids: seq<text>)
    ensures |ids| == Takers(line)
    decreases |line|
  {
    if line == [] then [] else (if line[0].handles then [line[0].id] else []) + TakerIds(line[1..])
  }

  lemma {:induction false} UncheckedServesAll(c: Controller, line: seq<Strategy>)
    ensures Dispatch(c, line, false).served == TakerIds(line)
    decreases |line|
  {
    if line != [] { UncheckedServesAll(if line[0].handles then Served(c, line[0]) else c, line[1..]); }
  }

  lemma {:induction false} CheckedServesFewer(c: Controller, line: seq<Strategy>)
    ensures |Dispatch(c, line, true).served| <= Takers(line)
    decreases |line|
  {
    if line != [] {
      CheckedServesFewer(c, line[1..]);
      CheckedServesFewer(Served(c, line[0]), line[1..]);
    }
  }

  function Without(line: seq<Strategy>, j: nat): seq<Strategy>
    requires j < |line|
  {
    line[..j] + line[j + 1..]
  }

  /** A strategy that is not running when the checked loop starts is passed over: the loop does just
      what it would do were that strategy not in the line. Serving others brings nobody back. */
  lemma {:induction false} HaltedIsPassedOver(c: Controller, line: seq<Strategy>, j: nat)
    requires j < |line| && StateOf(c, DispatchId(line[j].id)) != Running
    ensures Dispatch(c, line, true) == Dispatch(c, Without(line, j), true)
    decreases |line|
  {
    if j == 0 {
      assert Without(line, 0) == line[1..];
    } else {
      assert Without(line, j)[0] == line[0] && Without(line, j)[1..] == Without(line[1..], j - 1);
      HaltedIsPassedOver(c, line[1..], j - 1);
      HaltedIsPassedOver(Served(c, line[0]), line[1..], j - 1);
    }
  }

  lemma {:induction false} TakersWithout(line: seq<Strategy>, j: nat)
    requires j < |line|
    ensures Takers(line) == Takers(Without(line, j)) + (if line[j].handles then 1 else 0)
    decreases |line|
  {
    if j == 0 {
      assert Without(line, 0) == line[1..];
    } else {
      assert Without(line, j)[0] == line[0] && Without(line, j)[1..] == Without(line[1..], j - 1);
      TakersWithout(line[1..], j - 1);
    }
  }

  lemma {:induction false} HaltedLeavesFewer(c: Controller, line: seq<Strategy>, j: nat)
    requires j < |line| && line[j].handles && StateOf(c, DispatchId(line[j].id)) != Running
    ensures |Dispatch(c, line, true).served| < Takers(line)
  {
    HaltedIsPassedOver(c, line, j);
    TakersWithout(line, j);
    CheckedServesFewer(c, Without(line, j));
  }

  /** Serving one strategy leaves the others' error counts alone. */
  lemma OthersCounted(c: Controller, s: Strategy, id: text)
    requires s.id != id
    ensures ErrorCount(Served(c, s), id) == ErrorCount(c, id)
  {}

  lemma ServedState(c: Controller, s: Strategy, t: Strategy)
    requires s.handles && t.handles && StateOf(c, DispatchId(t.id)) == Running
    ensures StateOf(Served(c, s), DispatchId(t.id)) != Running <==> Clash(c, s, t)
  {}

  /** Serving the first strategy leaves the clashes among the others as they are. */
  lemma ClashesStay(c: Controller, line: seq<Strategy>)
    requires line != [] && Distinct(line)
    ensures Distinct(line[1..]) && (NoClash(Served(c, line[0]), line[1..]) <==> NoClash(c, line[1..]))
  {
    var s, rest := line[0], line[1..];
    forall i, j | 0 <= i < j < |rest| ensures rest[i].id != rest[j].id { assert line[i + 1].id != line[j + 1].id; }
    forall i, j | 0 <= i < j < |rest| ensures Clash(Served(c, s), rest[i], rest[j]) <==> Clash(c, rest[i], rest[j]) {
      assert line[0].id != line[i + 1].id;
      OthersCounted(c, s, rest[i].id);
    }
  }

  lemma {:induction false} CheckIdleIff(c: Controller, line: seq<Strategy>)
    requires AllRunning(c, line) && Distinct(line)
    ensures NoClash(c, line) ==> Dispatch(c, line, true) == Dispatch(c, line, false)
    ensures !NoClash(c, line) ==> |Dispatch(c, line, true).served| < Takers(line)
    decreases |line|
  {
    if line != [] {
      var s, rest := line[0], line[1..];
      ClashesStay(c, line);
      forall i | 0 <= i < |rest| && rest[i].handles ensures StateOf(c, DispatchId(rest[i].id)) == Running {
        assert line[i + 1] == rest[i];
      }
      if s.handles {
        FirstServed(c, line);
      } else {
        CheckIdleIff(c, rest);
        PassedOver(c, line);
      }
    }
  }

  lemma PassedOver(c: Controller, line: seq<Strategy>)
    requires line != [] && !line[0].handles
    ensures NoClash(c, line) <==> NoClash(c, line[1..])
  {
    if NoClash(c, line) {
      forall i, j | 0 <= i < j < |line| - 1 ensures !Clash(c, line[1..][i], line[1..][j]) {
        assert !Clash(c, line[i + 1], line[j + 1]);
      }
    } else {
      var i, j :| 0 <= i < j < |line| && Clash(c, line[i], line[j]);
      assert Clash(c, line[1..][i - 1], line[1..][j - 1]);
    }
  }

  lemma {:induction false} FirstServed(c: Controller, line: seq<Strategy>)
    requires line != [] && line[0].handles && AllRunning(c, line) && Distinct(line) && Distinct(line[1..])
    requires NoClash(Served(c, line[0]), line[1..]) <==> NoClash(c, line[1..])
    ensures NoClash(c, line) ==> Dispatch(c, line, true) == Dispatch(c, line, false)
    ensures !NoClash(c, line) ==> |Dispatch(c, line, true).served| < Takers(line)
    decreases |line|, 0
  {
    var s, rest := line[0], line[1..];
    var d := Served(c, s);
    if j :| 0 <= j < |rest| && Clash(c, s, rest[j]) {
      ServedState(c, s, line[j + 1]);
      HaltedLeavesFewer(d, rest, j);
      assert Clash(c, line[0], line[j + 1]);
    } else {
      forall i | 0 <= i < |rest| && rest[i].handles ensures StateOf(d, DispatchId(rest[i].id)) == Running {
        ServedState(c, s, line[i + 1]);
      }
      CheckIdleIff(d, rest);
      NoneAtFirst(c, line);
    }
  }

  lemma NoneAtFirst(c: Controller, line: seq<Strategy>)
    requires line != [] && forall j :: 0 <= j < |line| - 1 ==> !Clash(c, line[0], line[1..][j])
    ensures NoClash(c, line) <==> NoClash(c, line[1..])
  {
    if NoClash(c, line) {
      forall i, j | 0 <= i < j < |line| - 1 ensures !Clash(c, line[1..][i], line[1..][j]) {
        assert !Clash(c, line[i + 1], line[j + 1]);
      }
    } else {
      var i, j :| 0 <= i < j < |line| && Clash(c, line[i], line[j]);
      assert line[1..][j - 1] == line[j];
      if i > 0 { assert Clash(c, line[1..][i - 1], line[1..][j - 1]); }
    }
  }

  /** The fast path, exactly: in every run, while the engine as a whole runs and the counter is zero,
      the unchecked dispatch serves the same strategies, and leaves the same state, as the check of
      every single one would, just when no strategy of the line is paused, by its tenth error in a
      row, under the key that a later one is looked up by. */
  lemma {:induction false} FastDispatchIff(acts: seq<Action>, line: seq<Strategy>)
    requires Run(INITIAL, acts).nonRunning == 0 && Run(INITIAL, acts).global == Running && Distinct(line)
    ensures Dispatch(Run(INITIAL, acts), line, false) == Dispatch(Run(INITIAL, acts), line, true)
      <==> NoClash(Run(INITIAL, acts), line)
  {
    var c := Run(INITIAL, acts);
    CountersSound(acts, []);
    assert |Halted(c.states)| == 0;
    forall i | 0 <= i < |line| ensures StateOf(c, DispatchId(line[i].id)) == Running {
      var key := Target(DispatchId(line[i].id));
      assert key in c.states && c.states[key] != Running ==> key in Halted(c.states);
    }
    CheckIdleIff(c, line);
    UncheckedServesAll(c, line);
  }

  /** Names without blanks around them, all different, never clash: for them the fast path is sound. */
  lemma {:induction false} FastDispatchIsSound(acts: seq<Action>, line: seq<Strategy>)
    requires Run(INITIAL, acts).nonRunning == 0 && Run(INITIAL, acts).global == Running
    requires forall i :: 0 <= i < |line| ==> Trimmed(line[i].id)
    requires forall i, j :: 0 <= i < j < |line| ==> DispatchId(line[i].id) != DispatchId(line[j].id)
    ensures Dispatch(Run(INITIAL, acts), line, false) == Dispatch(Run(INITIAL, acts), line, true)
  {
    forall i, j | 0 <= i < j < |line| ensures line[i].id != line[j].id && !Clash(Run(INITIAL, acts), line[i], line[j]) {
      assert DispatchId(line[i].id) != DispatchId(line[j].id);
      TrimTrims(line[j].id);
      TrimTrims(DEFAULT);
    }
    FastDispatchIff(acts, line);
  }

  /** "a", and the same with a blank before it */
  const NAME: text := [0x61]
  const PADDED: text := [0x20, 0x61]

  lemma {:induction false} FailsCount(c: Controller, id: text, n: nat) returns (acts: seq<Action>)
    requires ErrorCount(c, id) + n < MAX_ERRORS
    ensures Run(c, acts).states == c.states && Run(c, acts).nonRunning == c.nonRunning && Run(c, acts).global == c.global
    ensures ErrorCount(Run(c, acts), id) == ErrorCount(c, id) + n
    decreases n, c
  {
    acts := [];
    if n > 0 {
      var rest := FailsCount(OnError(c, id), id, n - 1);
      acts := [Fail(id)] + rest;
      assert acts[1..] == rest;
    }
  }

  /** A clash there can be: nine errors of one strategy, and behind it one named the same but for a
      blank. The fast path still serves the second, the check would not. */
  lemma PaddedNameIsServed() returns (acts: seq<Action>, line: seq<Strategy>)
    ensures Run(INITIAL, acts).nonRunning == 0 && Run(INITIAL, acts).global == Running && Distinct(line)
    ensures Dispatch(Run(INITIAL, acts), line, false) != Dispatch(Run(INITIAL, acts), line, true)
  {
    acts := FailsCount(INITIAL, NAME, MAX_ERRORS - 1);
    line := [Strategy(NAME, true, true), Strategy(PADDED, true, false)];
    TrimPadded([0x20], NAME, []);
    assert [0x20] + NAME + [] == PADDED;
    assert Clash(Run(INITIAL, acts), line[0], line[1]);
    FastDispatchIff(acts, line);
  }

  /** Pausing on errors works exactly for an id that is its own key: an id with blanks around it, or
      no id at all, is booked where no lookup finds it. */
  lemma PauseTakesEffectIff(c: Controller, id: text)
    requires ErrorCount(c, id) + 1 >= MAX_ERRORS && StateOf(c, id) != Paused
    ensures StateOf(OnError(c, id), id) == Paused <==> Target(id) == id
  {}

  /** A strategy without an id is never paused: however often it fails, nobody's state changes. */
  lemma UnnamedNeverPaused(c: Controller, id: text)
    ensures StateOf(OnError(c, []), id) == StateOf(c, id)
  {
    assert Target(id) != [];
  }

  // ----- the class -----

  /** A dispatch with more served before it. */
  function Behind(served: seq<text>, d: Dispatched): Dispatched
  {
    Dispatched(d.c, served + d.served)
  }

  lemma DispatchTurn(c: Controller, line: seq<Strategy>, check: bool, before: seq<text>, after: seq<text>)
    requires line != []
    requires after == if Takes(c, line[0], check) then before + [line[0].id] else before
    ensures Behind(before, Dispatch(c, line, check))
      == Behind(after, Dispatch(if Takes(c, line[0], check) then Served(c, line[0]) else c, line[1..], check))
  {
    if Takes(c, line[0], check) {
      var more := Dispatch(Served(c, line[0]), line[1..], check).served;
      assert before + ([line[0].id] + more) == (before + [line[0].id]) + more;
    }
  }

  class StrategyController {
    var globalState: RunState
    var states: map<text, RunState>
    var errorCounts: map<text, nat>
    var nonRunningCount: int
    var hasErrorState: bool

    function Value(): Controller
      reads this
    {
      Controller(states, errorCounts, nonRunningCount, hasErrorState, globalState)
    }

    constructor ()
      ensures Value() == INITIAL && Inv(Value())
    {
      globalState, states, errorCounts, nonRunningCount, hasErrorState := Running, map[], map[], 0, false;
      assert Halted(map[]) == {};
    }

    method GetState(id: text) returns (state: RunState)
      ensures state == StateOf(Value(), id)
    {
      var target := Target(id);
      state := if target in states then states[target] else globalState;
    }

    method SetStrategyState(id: text, state: RunState) returns (ok: bool)
      requires Inv(Value())
      modifies this
      ensures Value() == SetState(old(Value()), id, state) && Inv(Value())
      ensures ok == (Target(id) in old(states))
    {
      StepKeepsInv(Value(), Set(id, state));
      var target := Target(id);
      if target !in states { return false; }
      var was := states[target];
      states := states[target := state];
      if was == Running && state != Running {
        nonRunningCount := nonRunningCount + 1;
      } else if was != Running && state == Running {
        nonRunningCount := nonRunningCount - 1;
      }
      ok := true;
    }

    method InitStrategy(id: text, initial: RunState)
      requires Inv(Value())
      modifies this
      ensures Value() == InitState(old(Value()), id, initial) && Inv(Value())
    {
      StepKeepsInv(Value(), Init(id, initial));
      if id in states { return; }
      states := states[id := initial];
      if initial != Running { nonRunningCount := nonRunningCount + 1; }
    }

    method RemoveStrategy(id: text)
      requires Inv(Value())
      modifies this
      ensures Value() == RemoveState(old(Value()), id) && Inv(Value())
    {
      StepKeepsInv(Value(), Remove(id));
      if id in states {
        if states[id] != Running { nonRunningCount := nonRunningCount - 1; }
        states := states - {id};
      }
    }

    method AutoPauseOnError(id: text) returns (paused: bool)
      requires Inv(Value())
      modifies this
      ensures Value() == OnError(old(Value()), id) && Inv(Value())
      ensures paused == (ErrorCount(old(Value()), id) + 1 >= MAX_ERRORS)
    {
      StepKeepsInv(Value(), Fail(id));
      var count := (if id in errorCounts then errorCounts[id] else 0) + 1;
      errorCounts := errorCounts[id := count];
      hasErrorState := true;
      paused := count >= MAX_ERRORS;
      if paused {
        states := states[id := Paused];
        nonRunningCount := nonRunningCount + 1;
      }
    }

    method ResetErrorCount(id: text)
      requires Inv(Value())
      modifies this
      ensures Value() == ResetErrors(old(Value()), id) && Inv(Value())
      ensures errorCounts == old(errorCounts) - {id}
    {
      StepKeepsInv(Value(), Reset(id));
      if !hasErrorState { return; }
      errorCounts := errorCounts - {id};
      if errorCounts == map[] { hasErrorState := false; }
    }

    /** What becomes of one strategy in line: passed over, or its handler called. */
    method Offer(s: Strategy, check: bool) returns (taken: bool)
      requires Inv(Value())
      modifies this
      ensures taken == Takes(old(Value()), s, check)
      ensures Value() == (if taken then Served(old(Value()), s) else old(Value())) && Inv(Value())
    {
      if !s.handles { return false; }
      if check {
        var state := GetState(if s.id == [] then DEFAULT else s.id);
        if state != Running { return false; }
      }
      if s.throws {
        var _ := AutoPauseOnError(s.id);
      } else {
        ResetErrorCount(s.id);
      }
      taken := true;
    }

    /** The dispatch loop of a tick: the counter is read once, before it. */
    method DispatchTick(line: seq<Strategy>) returns (served: seq<text>)
      requires Inv(Value())
      modifies this
      ensures old(globalState) != Running ==> served == [] && Value() == old(Value())
      ensures old(globalState) == Running ==>
        Dispatched(Value(), served) == Dispatch(old(Value()), line, old(nonRunningCount) > 0)
      ensures Inv(Value())
    {
      served := [];
      if globalState != Running { return; }
      var check := nonRunningCount > 0;
      ghost var whole := Dispatch(Value(), line, check);
      var rest := line;
      while rest != []
        invariant Inv(Value()) && whole == Behind(served, Dispatch(Value(), rest, check))
      {
        ghost var start, was, before := Value(), rest, served;
        var s := rest[0];
        var taken := Offer(s, check);
        if taken { served := served + [s.id]; }
        rest := rest[1..];
        DispatchTurn(start, was, check, before, served);
      }
    }
  }
}
