/** The resolver: indexes a well-formed document and answers state queries through a cache. */
module BcfResolver {
  import opened Options
  import opened BcfDocument
  import opened Decimal

  datatype ActorState = PlayerState(isDead: bool, specEnergy: Option<int>, offCooldown: Option<bool>) | NpcState

  datatype NpcPhase = NpcPhase(tick: int, phaseType: string)

  // ---------------------------------------------------------------- one tick

  function DefaultState(t: ActorType): ActorState {
    if t == NPC then NpcState else PlayerState(false, None, None)
  }

  function ExtractPersistent(cached: ActorState, t: ActorType): ActorState {
    if t == NPC || cached.NpcState? then NpcState else PlayerState(cached.isDead, cached.specEnergy, None)
  }

  predicate Dies(c: Cell) {
    c.actions.Some? && exists k :: 0 <= k < |c.actions.value| && c.actions.value[k].kind == "death"
  }

  function ApplyPersistent(state: ActorState, c: Cell, t: ActorType): ActorState {
    if t == NPC || state.NpcState? then state
    else
      var isDead := Dies(c) || state.isDead;
      if c.state.Some? then
        PlayerState(c.state.value.isDead.GetOr(isDead),
                    if c.state.value.specEnergy.Some? then c.state.value.specEnergy else state.specEnergy, None)
      else PlayerState(isDead, state.specEnergy, None)
  }

  function BuildFinal(persistent: ActorState, c: Option<Cell>, t: ActorType): ActorState {
    if t == NPC || persistent.NpcState? then NpcState
    else if c.Some? && c.value.state.Some? && c.value.state.value.offCooldown.Some? then
      persistent.(offCooldown := c.value.state.value.offCooldown)
    else persistent
  }

  // ---------------------------------------------------------------- the direct answer

  /** The cell of an actor in a tick, if any. */
  function CellOf(cells: seq<Cell>, id: string): Option<Cell> {
    if cells == [] then None
    else if cells[|cells| - 1].actorId == id then Some(cells[|cells| - 1])
    else CellOf(cells[..|cells| - 1], id)
  }

  /** The cell of an actor at a tick number, if any. */
  function CellAt(ticks: seq<Tick>, id: string, tick: int): Option<Cell> {
    if ticks == [] then None
    else
      var last := ticks[|ticks| - 1];
      if last.tick == tick && CellOf(last.cells, id).Some? then CellOf(last.cells, id)
      else CellAt(ticks[..|ticks| - 1], id, tick)
  }

  /** The actor's cells up to and including a tick, folded from its default state. */
  function Persistent(ticks: seq<Tick>, id: string, t: ActorType, upTo: int): ActorState {
    if ticks == [] then DefaultState(t)
    else
      var last, before := ticks[|ticks| - 1], Persistent(ticks[..|ticks| - 1], id, t, upTo);
      if last.tick <= upTo && CellOf(last.cells, id).Some? then ApplyPersistent(before, CellOf(last.cells, id).value, t)
      else before
  }

  /** The state of an actor at a tick: its folded cells plus what that tick's own cell adds. */
  function Answer(d: Document, id: string, t: ActorType, tick: int): ActorState {
    BuildFinal(Persistent(d.ticks, id, t, tick), CellAt(d.ticks, id, tick), t)
  }

  // ---------------------------------------------------------------- folds over a prefix

  ghost predicate Ordered(ticks: seq<Tick>) {
    Increasing(TickNumbers(ticks))
  }

  lemma OrderedInit(ticks: seq<Tick>, n: nat)
    requires Ordered(ticks) && n <= |ticks|
    ensures Ordered(ticks[..n])
  {
    assert forall i :: 0 <= i < n ==> TickNumbers(ticks[..n])[i] == TickNumbers(ticks)[i];
  }

  /** Ticks after the queried one do not matter. */
  lemma {:induction false} PersistentPrefix(ticks: seq<Tick>, n: nat, id: string, t: ActorType, upTo: int)
    requires n <= |ticks| && forall i :: n <= i < |ticks| ==> ticks[i].tick > upTo
    ensures Persistent(ticks, id, t, upTo) == Persistent(ticks[..n], id, t, upTo)
    decreases |ticks|
  {
    if n < |ticks| {
      var init := ticks[..|ticks| - 1];
      PersistentPrefix(init, n, id, t, upTo);
      assert init[..n] == ticks[..n];
    } else {
      assert ticks[..n] == ticks;
    }
  }

  /** Once every tick counts, the bound does not matter. */
  lemma {:induction false} PersistentBound(ticks: seq<Tick>, id: string, t: ActorType, a: int, b: int)
    requires forall i :: 0 <= i < |ticks| ==> ticks[i].tick <= a && ticks[i].tick <= b
    ensures Persistent(ticks, id, t, a) == Persistent(ticks, id, t, b)
    decreases |ticks|
  {
    if ticks != [] {
      PersistentBound(ticks[..|ticks| - 1], id, t, a, b);
    }
  }

  lemma {:induction false} CellAtIndex(ticks: seq<Tick>, i: nat, id: string)
    requires Ordered(ticks) && i < |ticks|
    ensures CellAt(ticks, id, ticks[i].tick) == CellOf(ticks[i].cells, id)
    decreases |ticks|
  {
    var init := ticks[..|ticks| - 1];
    var ns := TickNumbers(ticks);
    OrderedInit(ticks, |init|);
    if i < |init| {
      assert ns[i] < ns[|init|];
      CellAtIndex(init, i, id);
    } else {
      assert forall k :: 0 <= k < |init| ==> ns[k] < ns[|init|];
      CellAtAbsent(init, id, ticks[i].tick);
    }
  }

  lemma {:induction false} CellAtAbsent(ticks: seq<Tick>, id: string, tick: int)
    requires forall i :: 0 <= i < |ticks| ==> ticks[i].tick != tick
    ensures CellAt(ticks, id, tick).None?
    decreases |ticks|
  {
    if ticks != [] {
      CellAtAbsent(ticks[..|ticks| - 1], id, tick);
    }
  }

  /** Extracting the persistent part of an answer gives back the fold it was built from. */
  lemma {:induction false} ExtractAnswer(ticks: seq<Tick>, id: string, t: ActorType, upTo: int, c: Option<Cell>)
    ensures ExtractPersistent(BuildFinal(Persistent(ticks, id, t, upTo), c, t), t) == Persistent(ticks, id, t, upTo)
    ensures Persistent(ticks, id, t, upTo).NpcState? <==> t == NPC
    ensures Persistent(ticks, id, t, upTo).PlayerState? ==> Persistent(ticks, id, t, upTo).offCooldown.None?
    decreases |ticks|
  {
    if ticks != [] {
      ExtractAnswer(ticks[..|ticks| - 1], id, t, upTo, c);
    }
  }

  // ---------------------------------------------------------------- indexes

  /** The cell index holds exactly the cells of the ticks. */
  ghost predicate CellIndexOf(index: map<string, Cell>, ticks: seq<Tick>) {
    forall id, tick ::
      (CellKey(id, tick) in index <==> CellAt(ticks, id, tick).Some?) &&
      (CellKey(id, tick) in index ==> CellAt(ticks, id, tick) == Some(index[CellKey(id, tick)]))
  }

  function PhasesOfActions(actions: seq<Action>, tick: int): seq<NpcPhase> {
    if actions == [] then []
    else
      PhasesOfActions(actions[..|actions| - 1], tick) +
      if actions[|actions| - 1].kind == "npcPhase" then [NpcPhase(tick, actions[|actions| - 1].phaseType.GetOr(""))] else []
  }

  function PhasesOfCells(cells: seq<Cell>, tick: int, id: string): seq<NpcPhase> {
    if cells == [] then []
    else
      var last := cells[|cells| - 1];
      PhasesOfCells(cells[..|cells| - 1], tick, id) +
      if last.actorId == id && last.actions.Some? then PhasesOfActions(last.actions.value, tick) else []
  }

  /** The phase actions of an actor in document order. */
  function PhasesOf(ticks: seq<Tick>, id: string): seq<NpcPhase> {
    if ticks == [] then []
    else
      var last := ticks[|ticks| - 1];
      PhasesOf(ticks[..|ticks| - 1], id) + PhasesOfCells(last.cells, last.tick, id)
  }

  function PhasesIn(index: map<string, seq<NpcPhase>>, id: string): seq<NpcPhase> {
    if id in index then index[id] else []
  }

  ghost predicate Ascending(ps: seq<NpcPhase>) {
    forall i, j :: 0 <= i < j < |ps| ==> ps[i].tick < ps[j].tick
  }

  lemma {:induction false} NoPhaseActions(actions: seq<Action>, tick: int)
    requires forall k :: 0 <= k < |actions| ==> actions[k].kind != "npcPhase"
    ensures PhasesOfActions(actions, tick) == []
    decreases |actions|
  {
    if actions != [] {
      NoPhaseActions(actions[..|actions| - 1], tick);
    }
  }

  lemma {:induction false} OnePhasePerCell(actions: seq<Action>, tick: int)
    requires DistinctKinds(actions)
    ensures |PhasesOfActions(actions, tick)| <= 1
    ensures forall p :: p in PhasesOfActions(actions, tick) ==> p.tick == tick
    decreases |actions|
  {
    if actions != [] {
      var init, last := actions[..|actions| - 1], actions[|actions| - 1];
      if last.kind == "npcPhase" {
        NoPhaseActions(init, tick);
      } else {
        OnePhasePerCell(init, tick);
      }
    }
  }

  lemma {:induction false} NoPhaseCells(cells: seq<Cell>, tick: int, id: string)
    requires forall k :: 0 <= k < |cells| ==> cells[k].actorId != id
    ensures PhasesOfCells(cells, tick, id) == []
    decreases |cells|
  {
    if cells != [] {
      NoPhaseCells(cells[..|cells| - 1], tick, id);
    }
  }

  lemma {:induction false} OnePhasePerTick(cells: seq<Cell>, tick: int, id: string)
    requires forall i, j :: 0 <= i < j < |cells| ==> cells[i].actorId != cells[j].actorId
    requires forall i :: 0 <= i < |cells| && cells[i].actions.Some? ==> DistinctKinds(cells[i].actions.value)
    ensures |PhasesOfCells(cells, tick, id)| <= 1
    ensures forall p :: p in PhasesOfCells(cells, tick, id) ==> p.tick == tick
    decreases |cells|
  {
    if cells != [] {
      var init, last := cells[..|cells| - 1], cells[|cells| - 1];
      if last.actorId == id && last.actions.Some? {
        NoPhaseCells(init, tick, id);
        OnePhasePerCell(last.actions.value, tick);
      } else {
        OnePhasePerTick(init, tick, id);
      }
    }
  }

  /** In a well-formed document the phases of an actor come at strictly increasing ticks. */
  lemma {:induction false} PhasesAscend(d: Document, n: nat, id: string)
    requires WellFormed(d) && n <= |d.ticks|
    ensures Ascending(PhasesOf(d.ticks[..n], id))
    ensures forall p :: p in PhasesOf(d.ticks[..n], id) ==> n > 0 && p.tick <= d.ticks[n - 1].tick
  {
    if n > 0 {
      PhasesAscend(d, n - 1, id);
      var last := d.ticks[n - 1];
      assert d.ticks[..n][..n - 1] == d.ticks[..n - 1];
      assert CellsOk(d.actors, last);
      forall i | 0 <= i < |last.cells| && last.cells[i].actions.Some?
        ensures DistinctKinds(last.cells[i].actions.value)
      {
        assert CellOk(d.actors, last.tick, last.cells[i]);
      }
      OnePhasePerTick(last.cells, last.tick, id);
      var ns := TickNumbers(d.ticks);
      assert n > 1 ==> ns[n - 2] < ns[n - 1];
    }
  }

  // ---------------------------------------------------------------- building the indexes

  ghost predicate PhaseIndexOf(index: map<string, seq<NpcPhase>>, ticks: seq<Tick>) {
    forall id :: PhasesIn(index, id) == PhasesOf(ticks, id)
  }

  lemma EmptyTickIndex(index: map<string, Cell>, phases: map<string, seq<NpcPhase>>, ticks: seq<Tick>, tick: int)
    requires CellIndexOf(index, ticks) && PhaseIndexOf(phases, ticks)
    ensures CellIndexOf(index, ticks + [Tick(tick, [])]) && PhaseIndexOf(phases, ticks + [Tick(tick, [])])
  {
    assert (ticks + [Tick(tick, [])])[..|ticks|] == ticks;
  }

  /** Setting a cell's key extends the index by that cell. */
  lemma IndexCell(index: map<string, Cell>, ticks: seq<Tick>, tick: int, cells: seq<Cell>, c: Cell)
    requires CellIndexOf(index, ticks + [Tick(tick, cells)])
    ensures CellIndexOf(index[CellKey(c.actorId, tick) := c], ticks + [Tick(tick, cells + [c])])
  {
    var before, after := ticks + [Tick(tick, cells)], ticks + [Tick(tick, cells + [c])];
    assert before[..|ticks|] == ticks == after[..|ticks|];
    assert (cells + [c])[..|cells|] == cells;
    hide CellKey;
    forall id, t
      ensures CellAt(after, id, t) == if id == c.actorId && t == tick then Some(c) else CellAt(before, id, t)
      ensures CellKey(id, t) == CellKey(c.actorId, tick) ==> id == c.actorId && t == tick
    {
      if CellKey(id, t) == CellKey(c.actorId, tick) {
        CellKeyInjective(id, t, c.actorId, tick);
      }
    }
  }

  /** Appending a cell's phases under its actor extends the phase index by that cell. */
  lemma IndexCellPhases(index: map<string, seq<NpcPhase>>, ticks: seq<Tick>, tick: int, cells: seq<Cell>, c: Cell)
    requires PhaseIndexOf(index, ticks + [Tick(tick, cells)])
    ensures var ps := CellPhases(c, tick);
      PhaseIndexOf(if ps == [] then index else index[c.actorId := PhasesIn(index, c.actorId) + ps],
                   ticks + [Tick(tick, cells + [c])])
  {
    var ps := CellPhases(c, tick);
    var result := if ps == [] then index else index[c.actorId := PhasesIn(index, c.actorId) + ps];
    hide PhasesOf, CellPhases;
    forall id
      ensures PhasesIn(result, id) == PhasesOf(ticks + [Tick(tick, cells + [c])], id)
    {
      PhasesWithCell(ticks, tick, cells, c, id);
      assert PhasesIn(index, id) == PhasesOf(ticks + [Tick(tick, cells)], id);
    }
  }

  lemma PhasesWithCell(ticks: seq<Tick>, tick: int, cells: seq<Cell>, c: Cell, id: string)
    ensures PhasesOf(ticks + [Tick(tick, cells + [c])], id) ==
      PhasesOf(ticks + [Tick(tick, cells)], id) + if c.actorId == id then CellPhases(c, tick) else []
  {
    hide PhasesOfActions;
    var before, after := ticks + [Tick(tick, cells)], ticks + [Tick(tick, cells + [c])];
    assert before[..|ticks|] == ticks == after[..|ticks|];
    assert (cells + [c])[..|cells|] == cells;
  }

  function CellPhases(c: Cell, tick: int): seq<NpcPhase> {
    if c.actions.Some? then PhasesOfActions(c.actions.value, tick) else []
  }

  lemma PhasesAdded(index: map<string, seq<NpcPhase>>, result: map<string, seq<NpcPhase>>, id: string, ps: seq<NpcPhase>)
    requires id in result && result[id] == PhasesIn(index, id) + ps
    requires forall k :: k != id ==> (k in result <==> k in index) && PhasesIn(result, k) == PhasesIn(index, k)
    ensures result == index[id := PhasesIn(index, id) + ps]
  {
    var expected := index[id := PhasesIn(index, id) + ps];
    forall k | k in result
      ensures k in expected && result[k] == expected[k]
    {
      assert k != id ==> PhasesIn(result, k) == PhasesIn(index, k);
    }
  }

  /** Adds the phase actions of one cell to the phase index. */
  method IndexPhases(index: map<string, seq<NpcPhase>>, c: Cell, tick: int) returns (result: map<string, seq<NpcPhase>>)
    ensures CellPhases(c, tick) == [] ==> result == index
    ensures CellPhases(c, tick) != [] ==> result == index[c.actorId := PhasesIn(index, c.actorId) + CellPhases(c, tick)]
  {
    result := index;
    if c.actions.Some? {
      var actions := c.actions.value;
      for k := 0 to |actions|
        invariant PhasesOfActions(actions[..k], tick) == [] ==> result == index
        invariant PhasesOfActions(actions[..k], tick) != [] ==> c.actorId in result
        invariant PhasesIn(result, c.actorId) == PhasesIn(index, c.actorId) + PhasesOfActions(actions[..k], tick)
        invariant forall id :: id != c.actorId ==> (id in result <==> id in index) && PhasesIn(result, id) == PhasesIn(index, id)
      {
        assert actions[..k + 1][..k] == actions[..k];
        if actions[k].kind == "npcPhase" {
          var phases := if c.actorId in result then result[c.actorId] else [];
          var next := NpcPhase(tick, actions[k].phaseType.GetOr(""));
          result := result[c.actorId := phases + [next]];
        }
      }
      assert actions[..|actions|] == actions;
      if PhasesOfActions(actions, tick) != [] {
        PhasesAdded(index, result, c.actorId, PhasesOfActions(actions, tick));
      }
    }
  }

  method BuildIndexes(d: Document)
    returns (cells: map<string, Cell>, phases: map<string, seq<NpcPhase>>, tickNumbers: seq<int>)
    ensures CellIndexOf(cells, d.ticks) && PhaseIndexOf(phases, d.ticks) && tickNumbers == TickNumbers(d.ticks)
  {
    hide CellIndexOf, PhaseIndexOf;
    cells, phases, tickNumbers := map[], map[], [];
    NothingIndexed();
    for i := 0 to |d.ticks|
      invariant CellIndexOf(cells, d.ticks[..i]) && PhaseIndexOf(phases, d.ticks[..i])
      invariant tickNumbers == TickNumbers(d.ticks)[..i]
    {
      var tick := d.ticks[i];
      tickNumbers := tickNumbers + [tick.tick];
      cells, phases := IndexTick(d.ticks[..i], tick, cells, phases);
      assert d.ticks[..i + 1] == d.ticks[..i] + [tick];
    }
    assert d.ticks[..|d.ticks|] == d.ticks;
  }

  lemma NothingIndexed()
    ensures CellIndexOf(map[], []) && PhaseIndexOf(map[], [])
  {
  }

  /** Adds the cells of one tick to both indexes. */
  method IndexTick(ghost before: seq<Tick>, tick: Tick, cells0: map<string, Cell>, phases0: map<string, seq<NpcPhase>>)
    returns (cells: map<string, Cell>, phases: map<string, seq<NpcPhase>>)
    requires CellIndexOf(cells0, before) && PhaseIndexOf(phases0, before)
    ensures CellIndexOf(cells, before + [tick]) && PhaseIndexOf(phases, before + [tick])
  {
    hide CellIndexOf, CellKey, PhaseIndexOf, CellPhases;
    cells, phases := cells0, phases0;
    EmptyTickIndex(cells, phases, before, tick.tick);
    for j := 0 to |tick.cells|
      invariant CellIndexOf(cells, before + [Tick(tick.tick, tick.cells[..j])])
      invariant PhaseIndexOf(phases, before + [Tick(tick.tick, tick.cells[..j])])
    {
      var cell := tick.cells[j];
      assert tick.cells[..j + 1] == tick.cells[..j] + [cell];
      IndexCell(cells, before, tick.tick, tick.cells[..j], cell);
      cells := cells[CellKey(cell.actorId, tick.tick) := cell];
      IndexCellPhases(phases, before, tick.tick, tick.cells[..j], cell);
      phases := IndexPhases(phases, cell, tick.tick);
    }
    assert Tick(tick.tick, tick.cells[..|tick.cells|]) == tick;
  }

  // ---------------------------------------------------------------- sorting the tick numbers

  function Insert(ns: seq<int>, n: int): seq<int> {
    if ns == [] || ns[|ns| - 1] <= n then ns + [n] else Insert(ns[..|ns| - 1], n) + [ns[|ns| - 1]]
  }

  function Sort(ns: seq<int>): seq<int> {
    if ns == [] then [] else Insert(Sort(ns[..|ns| - 1]), ns[|ns| - 1])
  }

  lemma IncreasingInit(ns: seq<int>)
    requires ns != [] && Increasing(ns)
    ensures var init := ns[..|ns| - 1]; Increasing(init) && Insert(init, ns[|ns| - 1]) == ns
  {
    var init := ns[..|ns| - 1];
    assert init == [] || init[|init| - 1] < ns[|ns| - 1];
  }

  /** Sorting the tick numbers of a well-formed document changes nothing. */
  lemma {:induction false} SortIncreasing(ns: seq<int>)
    requires Increasing(ns)
    ensures Sort(ns) == ns
    decreases |ns|
  {
    hide Insert, Increasing;
    if ns != [] {
      IncreasingInit(ns);
      SortIncreasing(ns[..|ns| - 1]);
    }
  }

  // ---------------------------------------------------------------- the resolver

  /** A cache entry is the direct answer for the actor and the in-bounds tick its key names. */
  ghost predicate CacheEntry(d: Document, types: map<string, ActorType>, key: string, state: ActorState) {
    exists id, tick :: key == CellKey(id, tick) && id in types && d.InBounds(tick) && state == Answer(d, id, types[id], tick)
  }

  lemma CacheHit(d: Document, types: map<string, ActorType>, id: string, tick: int, state: ActorState)
    requires CacheEntry(d, types, CellKey(id, tick), state)
    ensures id in types && d.InBounds(tick) && state == Answer(d, id, types[id], tick)
  {
    var a, t :| CellKey(id, tick) == CellKey(a, t) && a in types && d.InBounds(t) && state == Answer(d, a, types[a], t);
    CellKeyInjective(id, tick, a, t);
  }

  /** What one tick adds to the fold, and the answer at that tick, read through the fold of its prefix. */
  lemma FoldTick(d: Document, i: nat, id: string, t: ActorType, upTo: int)
    requires Ordered(d.ticks) && i < |d.ticks| && d.ticks[i].tick <= upTo
    ensures var c, before := CellAt(d.ticks, id, d.ticks[i].tick), Persistent(d.ticks[..i], id, t, upTo);
      Persistent(d.ticks[..i + 1], id, t, upTo) == (if c.Some? then ApplyPersistent(before, c.value, t) else before)
    ensures Persistent(d.ticks, id, t, d.ticks[i].tick) == Persistent(d.ticks[..i + 1], id, t, upTo)
  {
    var ns, n := TickNumbers(d.ticks), d.ticks[i].tick;
    CellAtIndex(d.ticks, i, id);
    assert d.ticks[..i + 1][..i] == d.ticks[..i];
    assert forall k :: 0 <= k <= i ==> ns[k] <= n;
    assert forall k :: i < k < |ns| ==> ns[k] > n;
    PersistentPrefix(d.ticks, i + 1, id, t, n);
    PersistentBound(d.ticks[..i + 1], id, t, n, upTo);
  }

  lemma WellFormedOrdered(d: Document)
    requires WellFormed(d)
    ensures Ordered(d.ticks) && forall i :: 0 <= i < |d.ticks| ==> d.InBounds(d.ticks[i].tick)
  {
    var ns := TickNumbers(d.ticks);
    assert forall i :: 0 <= i < |d.ticks| ==> 0 <= ns[i] < d.totalTicks;
  }

  /** The persistent part of the answer at an earlier tick is the fold of the ticks up to it. */
  lemma FromAnswer(d: Document, i: nat, id: string, t: ActorType, upTo: int)
    requires Ordered(d.ticks) && i < |d.ticks| && d.ticks[i].tick <= upTo
    ensures ExtractPersistent(Answer(d, id, t, d.ticks[i].tick), t) == Persistent(d.ticks[..i + 1], id, t, upTo)
  {
    var n := d.ticks[i].tick;
    ExtractAnswer(d.ticks, id, t, n, CellAt(d.ticks, id, n));
    FoldTick(d, i, id, t, upTo);
  }

  // ---------------------------------------------------------------- what an answer means for the cells

  /** The j-th cell of the k-th tick is the actor's, and not after the given tick. */
  ghost predicate CellUpTo(ticks: seq<Tick>, id: string, upTo: int, k: int, j: int) {
    0 <= k < |ticks| && ticks[k].tick <= upTo && 0 <= j < |ticks[k].cells| && ticks[k].cells[j].actorId == id
  }

  /** The cell has a death action, or says whether the actor is dead. */
  ghost predicate MarksDeath(c: Cell) {
    (c.actions.Some? && exists a :: a in c.actions.value && a.kind == "death") || (c.state.Some? && c.state.value.isDead.Some?)
  }

  /** The special energy that the cell sets, if any. */
  ghost function EnergySet(c: Cell): Option<int> {
    if c.state.Some? then c.state.value.specEnergy else None
  }

  /** It is dead if the last cell that marks its death says so, or has just the action; alive if no cell does. */
  ghost predicate DeathMeans(ticks: seq<Tick>, id: string, upTo: int, isDead: bool) {
    (isDead ==> exists k, j :: CellUpTo(ticks, id, upTo, k, j) && MarksDeath(ticks[k].cells[j])) &&
    forall k, j ::
      CellUpTo(ticks, id, upTo, k, j) && MarksDeath(ticks[k].cells[j]) &&
      (forall k', j' :: CellUpTo(ticks, id, upTo, k', j') && MarksDeath(ticks[k'].cells[j']) ==>
         ticks[k'].tick <= ticks[k].tick)
      ==>
      var state := ticks[k].cells[j].state;
      isDead == if state.Some? && state.value.isDead.Some? then state.value.isDead.value else true
  }

  /** Its special energy is that of the last cell that sets it, if any does. */
  ghost predicate EnergyMeans(ticks: seq<Tick>, id: string, upTo: int, energy: Option<int>) {
    (energy.Some? ==> exists k, j :: CellUpTo(ticks, id, upTo, k, j) && EnergySet(ticks[k].cells[j]).Some?) &&
    forall k, j ::
      CellUpTo(ticks, id, upTo, k, j) && EnergySet(ticks[k].cells[j]).Some? &&
      (forall k', j' :: CellUpTo(ticks, id, upTo, k', j') && EnergySet(ticks[k'].cells[j']).Some? ==>
         ticks[k'].tick <= ticks[k].tick)
      ==>
      energy == EnergySet(ticks[k].cells[j])
  }

  /** It is off cooldown as the tick's own cell says, if there is one. */
  ghost predicate CooldownMeans(ticks: seq<Tick>, id: string, tick: int, offCooldown: Option<bool>) {
    (offCooldown.Some? ==> exists k, j :: CellUpTo(ticks, id, tick, k, j) && ticks[k].tick == tick) &&
    forall k, j :: CellUpTo(ticks, id, tick, k, j) && ticks[k].tick == tick ==>
      var state := ticks[k].cells[j].state;
      offCooldown == if state.Some? then state.value.offCooldown else None
  }

  /** The state of a player at a tick. */
  ghost predicate StateMeans(ticks: seq<Tick>, id: string, tick: int, s: ActorState) {
    s.PlayerState? && DeathMeans(ticks, id, tick, s.isDead) && EnergyMeans(ticks, id, tick, s.specEnergy) &&
    CooldownMeans(ticks, id, tick, s.offCooldown)
  }

  ghost predicate DistinctCells(ticks: seq<Tick>) {
    forall k, i, j :: 0 <= k < |ticks| && 0 <= i < j < |ticks[k].cells| ==>
      ticks[k].cells[i].actorId != ticks[k].cells[j].actorId
  }

  lemma {:induction false} CellOfMeans(cells: seq<Cell>, id: string)
    ensures CellOf(cells, id).Some? ==>
      exists j :: 0 <= j < |cells| && cells[j].actorId == id && CellOf(cells, id).value == cells[j]
    ensures CellOf(cells, id).None? ==> forall j :: 0 <= j < |cells| ==> cells[j].actorId != id
    decreases |cells|
  {
    if cells != [] {
      CellOfMeans(cells[..|cells| - 1], id);
    }
  }

  /** Where a tick more leaves the actor's cells. */
  lemma CellsSnoc(ticks: seq<Tick>, id: string, upTo: int) returns (j: int)
    requires ticks != [] && Ordered(ticks) && DistinctCells(ticks)
    ensures OneCellMore(ticks, id, upTo, j)
    ensures var n := |ticks| - 1; var c := CellOf(ticks[n].cells, id);
      if c.Some? && ticks[n].tick <= upTo then CellUpTo(ticks, id, upTo, n, j) && ticks[n].cells[j] == c.value
      else !CellUpTo(ticks, id, upTo, n, j)
  {
    var n := |ticks| - 1;
    CellOfMeans(ticks[n].cells, id);
    j := 0;
    if CellOf(ticks[n].cells, id).Some? {
      var cells := ticks[n].cells;
      j :| 0 <= j < |cells| && cells[j].actorId == id && CellOf(cells, id).value == cells[j];
    }
    assert forall k :: 0 <= k < n ==> TickNumbers(ticks)[k] < TickNumbers(ticks)[n];
  }

  lemma {:induction false} PersistentMeans(ticks: seq<Tick>, id: string, upTo: int)
    requires Ordered(ticks) && DistinctCells(ticks)
    ensures var s := Persistent(ticks, id, PLAYER, upTo);
      s.PlayerState? && s.offCooldown.None? && DeathMeans(ticks, id, upTo, s.isDead) &&
      EnergyMeans(ticks, id, upTo, s.specEnergy)
    decreases |ticks|
  {
    hide DeathMeans, EnergyMeans;
    if ticks == [] {
      NothingMeans(id, upTo);
    } else {
      var n := |ticks| - 1;
      OrderedInit(ticks, n);
      PersistentMeans(ticks[..n], id, upTo);
      var j := CellsSnoc(ticks, id, upTo);
      var before, c := Persistent(ticks[..n], id, PLAYER, upTo), CellOf(ticks[n].cells, id);
      if ticks[n].tick <= upTo && c.Some? && MarksDeath(c.value) {
        DeathMarked(ticks, id, upTo, j, ApplyPersistent(before, c.value, PLAYER).isDead);
      } else {
        DeathKept(ticks, id, upTo, j, before.isDead);
      }
      if ticks[n].tick <= upTo && c.Some? && EnergySet(c.value).Some? {
        EnergyGiven(ticks, id, upTo, j, ApplyPersistent(before, c.value, PLAYER).specEnergy);
      } else {
        EnergyKept(ticks, id, upTo, j, before.specEnergy);
      }
    }
  }

  lemma NothingMeans(id: string, upTo: int)
    ensures DeathMeans([], id, upTo, false) && EnergyMeans([], id, upTo, None)
  {
  }

  /** The actor's cells in these ticks are those before the last tick, and the j-th of that tick. */
  ghost predicate OneCellMore(ticks: seq<Tick>, id: string, upTo: int, j: int)
    requires ticks != []
  {
    var n := |ticks| - 1;
    (forall k :: 0 <= k < n ==> ticks[k].tick < ticks[n].tick) &&
    forall k, i :: CellUpTo(ticks, id, upTo, k, i) <==>
      CellUpTo(ticks[..n], id, upTo, k, i) || (k == n && i == j && CellUpTo(ticks, id, upTo, n, j))
  }

  lemma DeathMarked(ticks: seq<Tick>, id: string, upTo: int, j: int, isDead: bool)
    requires ticks != [] && OneCellMore(ticks, id, upTo, j)
    requires var n := |ticks| - 1;
      CellUpTo(ticks, id, upTo, n, j) && MarksDeath(ticks[n].cells[j]) &&
      isDead == var state := ticks[n].cells[j].state; if state.Some? then state.value.isDead.GetOr(true) else true
    ensures DeathMeans(ticks, id, upTo, isDead)
  {
    hide MarksDeath;
  }

  lemma DeathKept(ticks: seq<Tick>, id: string, upTo: int, j: int, isDead: bool)
    requires ticks != [] && OneCellMore(ticks, id, upTo, j) && DeathMeans(ticks[..|ticks| - 1], id, upTo, isDead)
    requires var n := |ticks| - 1; CellUpTo(ticks, id, upTo, n, j) ==> !MarksDeath(ticks[n].cells[j])
    ensures DeathMeans(ticks, id, upTo, isDead)
  {
    hide MarksDeath;
    var init := ticks[..|ticks| - 1];
    assert forall k, i :: CellUpTo(ticks, id, upTo, k, i) && MarksDeath(ticks[k].cells[i]) <==>
      CellUpTo(init, id, upTo, k, i) && MarksDeath(init[k].cells[i]);
  }

  lemma EnergyGiven(ticks: seq<Tick>, id: string, upTo: int, j: int, energy: Option<int>)
    requires ticks != [] && OneCellMore(ticks, id, upTo, j)
    requires var n := |ticks| - 1;
      CellUpTo(ticks, id, upTo, n, j) && EnergySet(ticks[n].cells[j]).Some? && energy == EnergySet(ticks[n].cells[j])
    ensures EnergyMeans(ticks, id, upTo, energy)
  {
    hide EnergySet;
  }

  lemma EnergyKept(ticks: seq<Tick>, id: string, upTo: int, j: int, energy: Option<int>)
    requires ticks != [] && OneCellMore(ticks, id, upTo, j) && EnergyMeans(ticks[..|ticks| - 1], id, upTo, energy)
    requires var n := |ticks| - 1; CellUpTo(ticks, id, upTo, n, j) ==> EnergySet(ticks[n].cells[j]).None?
    ensures EnergyMeans(ticks, id, upTo, energy)
  {
    hide EnergySet;
    var init := ticks[..|ticks| - 1];
    assert forall k, i :: CellUpTo(ticks, id, upTo, k, i) && EnergySet(ticks[k].cells[i]).Some? <==>
      CellUpTo(init, id, upTo, k, i) && EnergySet(init[k].cells[i]).Some?;
  }

  /** The answer for a player is its state as the cells up to the tick tell it. */
  lemma AnswerMeans(d: Document, id: string, tick: int)
    requires WellFormed(d)
    ensures StateMeans(d.ticks, id, tick, Answer(d, id, PLAYER, tick))
  {
    hide DeathMeans, EnergyMeans, Persistent, CellAt;
    WellFormedOrdered(d);
    WellFormedCells(d);
    PersistentMeans(d.ticks, id, tick);
    CooldownOf(d.ticks, id, tick);
  }

  lemma NpcAnswer(d: Document, id: string, tick: int)
    ensures Answer(d, id, NPC, tick) == NpcState
  {
  }

  lemma WellFormedCells(d: Document)
    requires WellFormed(d)
    ensures DistinctCells(d.ticks)
  {
    hide CellOk, NumbersOk;
    assert forall k :: 0 <= k < |d.ticks| ==> CellsOk(d.actors, d.ticks[k]);
  }

  lemma CooldownOf(ticks: seq<Tick>, id: string, tick: int)
    requires Ordered(ticks) && DistinctCells(ticks)
    ensures var c := CellAt(ticks, id, tick);
      CooldownMeans(ticks, id, tick, if c.Some? && c.value.state.Some? then c.value.state.value.offCooldown else None)
  {
    if k :| 0 <= k < |ticks| && ticks[k].tick == tick {
      CellAtIndex(ticks, k, id);
      CellOfMeans(ticks[k].cells, id);
      assert forall i :: 0 <= i < |ticks| && i != k ==> TickNumbers(ticks)[i] != TickNumbers(ticks)[k];
      if CellOf(ticks[k].cells, id).Some? {
        var cells := ticks[k].cells;
        var j :| 0 <= j < |cells| && cells[j].actorId == id && CellOf(cells, id).value == cells[j];
        assert CellUpTo(ticks, id, tick, k, j);
      }
    } else {
      CellAtAbsent(ticks, id, tick);
    }
  }

  ghost predicate IsNpc(actors: seq<Actor>, id: string) {
    exists i :: 0 <= i < |actors| && actors[i].id == id && actors[i].Npc?
  }

  /** The type map finds exactly the document's actors, and the NPCs among them. */
  lemma TypeOfActor(actors: seq<Actor>, id: string)
    requires DistinctActors(actors)
    ensures id in TypeMap(actors) <==> Known(actors, id)
    ensures id in TypeMap(actors) && TypeMap(actors)[id] == NPC <==> IsNpc(actors, id)
    ensures forall i :: 0 <= i < |actors| && actors[i].id == id ==>
      id in TypeMap(actors) && TypeMap(actors)[id] == actors[i].Type()
  {
    TypeMapKeys(actors, id);
    forall i | 0 <= i < |actors| && actors[i].id == id
      ensures id in TypeMap(actors) && TypeMap(actors)[id] == actors[i].Type()
    {
      TypeMapExact(actors, i);
    }
  }

  class BcfResolver {
    const doc: Document
    const actorTypeIndex: map<string, ActorType>
    const cellIndex: map<string, Cell>
    const npcPhaseIndex: map<string, seq<NpcPhase>>
    const sortedTicks: seq<int>
    var stateCache: map<string, ActorState>

    ghost predicate Valid()
      reads this
    {
      WellFormed(doc) && actorTypeIndex == TypeMap(doc.actors) && CellIndexOf(cellIndex, doc.ticks) &&
      PhaseIndexOf(npcPhaseIndex, doc.ticks) && sortedTicks == TickNumbers(doc.ticks) &&
      forall key :: key in stateCache ==> CacheEntry(doc, actorTypeIndex, key, stateCache[key])
    }

    constructor (document: Document)
      requires WellFormed(document)
      ensures Valid() && doc == document && stateCache == map[]
    {
      var cells, phases, tickNumbers := BuildIndexes(document);
      SortIncreasing(tickNumbers);
      doc, actorTypeIndex := document, TypeMap(document.actors);
      cellIndex, npcPhaseIndex, sortedTicks := cells, phases, Sort(tickNumbers);
      stateCache := map[];
    }

    /** The cell of an actor at a tick, if the document has one. */
    method GetCell(actorId: string, tick: int) returns (cell: Option<Cell>)
      requires Valid()
      ensures cell == CellAt(doc.ticks, actorId, tick)
    {
      var key := CellKey(actorId, tick);
      return if key in cellIndex then Some(cellIndex[key]) else None;
    }

    /** The phases of an NPC, at strictly increasing ticks; none for anything else. */
    method GetNpcPhases(actorId: string) returns (phases: seq<NpcPhase>)
      requires Valid()
      ensures Ascending(phases)
      ensures phases == if IsNpc(doc.actors, actorId) then PhasesOf(doc.ticks, actorId) else []
    {
      TypeOfActor(doc.actors, actorId);
      if actorId !in actorTypeIndex || actorTypeIndex[actorId] != NPC {
        return [];
      }
      PhasesAscend(doc, |doc.ticks|, actorId);
      assert doc.ticks[..|doc.ticks|] == doc.ticks;
      assert PhasesIn(npcPhaseIndex, actorId) == PhasesOf(doc.ticks, actorId);
      return if actorId in npcPhaseIndex then npcPhaseIndex[actorId] else [];
    }

    /** The state of an actor at a tick, or nothing for an unknown actor or a tick out of bounds. */
    method GetActorState(actorId: string, tick: int) returns (state: Option<ActorState>)
      requires Valid()
      modifies this`stateCache
      ensures Valid()
      ensures state.None? <==> !Known(doc.actors, actorId) || !doc.InBounds(tick)
      ensures state.Some? ==> forall i :: 0 <= i < |doc.actors| && doc.actors[i].id == actorId ==>
        state.value == Answer(doc, actorId, doc.actors[i].Type(), tick) &&
        if doc.actors[i].Npc? then state.value == NpcState else StateMeans(doc.ticks, actorId, tick, state.value)
    {
      AnswerMeans(doc, actorId, tick);
      NpcAnswer(doc, actorId, tick);
      hide Answer, StateMeans;
      TypeOfActor(doc.actors, actorId);
      if actorId !in actorTypeIndex {
        return None;
      }
      if tick < 0 || tick > doc.totalTicks - 1 {
        return None;
      }
      var cacheKey := CellKey(actorId, tick);
      if cacheKey in stateCache {
        CacheHit(doc, actorTypeIndex, actorId, tick, stateCache[cacheKey]);
        return Some(stateCache[cacheKey]);
      }
      var resolved := ResolveState(actorId, actorTypeIndex[actorId], tick);
      return Some(resolved);
    }

    /** Finds the latest cached tick before the given one, if any: where to start, and the state there. */
    method FindCached(actorId: string, actorType: ActorType, tick: int) returns (startIdx: nat, persistentState: ActorState)
      requires Valid() && actorId in actorTypeIndex && actorTypeIndex[actorId] == actorType
      ensures startIdx <= |sortedTicks| && forall k :: 0 <= k < startIdx ==> sortedTicks[k] < tick
      ensures startIdx > 0 ==> CellKey(actorId, sortedTicks[startIdx - 1]) in stateCache
      ensures forall k :: startIdx <= k < |sortedTicks| && sortedTicks[k] < tick ==>
        CellKey(actorId, sortedTicks[k]) !in stateCache
      ensures persistentState == Persistent(doc.ticks[..startIdx], actorId, actorType, tick)
    {
      hide CellKey, CellAt, CellIndexOf, CacheEntry, WellFormed, PhaseIndexOf, TypeMap, Answer;
      WellFormedOrdered(doc);
      startIdx, persistentState := 0, DefaultState(actorType);
      var i := |sortedTicks| - 1;
      while i >= 0
        invariant -1 <= i < |sortedTicks|
        invariant forall k :: i < k < |sortedTicks| && sortedTicks[k] < tick ==>
          CellKey(actorId, sortedTicks[k]) !in stateCache
      {
        var t := sortedTicks[i];
        assert t == doc.ticks[i].tick;
        var key := CellKey(actorId, t);
        if t < tick && key in stateCache {
          CacheHit(doc, actorTypeIndex, actorId, t, stateCache[key]);
          FromAnswer(doc, i, actorId, actorType, tick);
          return i + 1, ExtractPersistent(stateCache[key], actorType);
        }
        i := i - 1;
      }
    }

    method ResolveState(actorId: string, actorType: ActorType, tick: int) returns (finalState: ActorState)
      requires Valid() && actorId in actorTypeIndex && actorTypeIndex[actorId] == actorType && doc.InBounds(tick)
      modifies this`stateCache
      ensures Valid()
      ensures finalState == Answer(doc, actorId, actorType, tick)
    {
      hide Persistent, ApplyPersistent, BuildFinal, CellAt, CellIndexOf, CacheEntry, WellFormed, PhaseIndexOf, TypeMap;
      WellFormedOrdered(doc);
      var startIdx, persistentState := FindCached(actorId, actorType, tick);
      var i := startIdx;
      while i < |sortedTicks| && sortedTicks[i] <= tick
        invariant Valid() && i <= |sortedTicks|
        invariant persistentState == Persistent(doc.ticks[..i], actorId, actorType, tick)
      {
        var t := sortedTicks[i];
        var cell := GetCell(actorId, t);
        FoldTick(doc, i, actorId, actorType, tick);
        if cell.Some? {
          persistentState := ApplyPersistent(persistentState, cell.value, actorType);
        }
        if t < tick {
          assert t == doc.ticks[i].tick;
          Store(actorId, t, BuildFinal(persistentState, cell, actorType));
        }
        i := i + 1;
      }
      assert forall k :: i <= k < |sortedTicks| ==> sortedTicks[k] > tick;
      PersistentPrefix(doc.ticks, i, actorId, actorType, tick);
      var currentCell := GetCell(actorId, tick);
      finalState := BuildFinal(persistentState, currentCell, actorType);
      Store(actorId, tick, finalState);
    }

    /** Caches an answer. */
    method Store(actorId: string, tick: int, state: ActorState)
      requires Valid() && actorId in actorTypeIndex && doc.InBounds(tick)
      requires state == Answer(doc, actorId, actorTypeIndex[actorId], tick)
      modifies this`stateCache
      ensures Valid() && stateCache == old(stateCache)[CellKey(actorId, tick) := state]
    {
      var key := CellKey(actorId, tick);
      assert CacheEntry(doc, actorTypeIndex, key, state);
      stateCache := stateCache[key := state];
    }
  }
}
