/** Schema-valid Blert Chart Format documents, and the rules that make one well-formed. */
module BcfDocument {
  import opened Options

  datatype ActorType = PLAYER | NPC

  datatype Actor = Player(id: string) | Npc(id: string, spawnTick: Option<int>, deathTick: Option<int>) {
    function Type(): ActorType {
      if Npc? then NPC else PLAYER
    }
  }

  datatype Action = Action(
    kind: string, attackType: Option<string>, specCost: Option<int>, targetActorId: Option<string>,
    phaseType: Option<string>)

  datatype CellState = CellState(isDead: Option<bool>, specEnergy: Option<int>, offCooldown: Option<bool>)

  datatype Cell = Cell(actorId: string, actions: Option<seq<Action>>, state: Option<CellState>)

  datatype Tick = Tick(tick: int, cells: seq<Cell>)

  datatype Phase = Phase(tick: int, phaseType: string)

  datatype Document = Document(
    totalTicks: int, startTick: Option<int>, endTick: Option<int>, rowOrder: Option<seq<string>>,
    actors: seq<Actor>, ticks: seq<Tick>, phases: Option<seq<Phase>>)
  {
    predicate InBounds(tick: int) {
      0 <= tick < totalTicks
    }
  }

  predicate IsPlayerAction(kind: string) {
    kind == "attack" || kind == "spell" || kind == "utility" || kind == "death"
  }

  predicate IsNpcAction(kind: string) {
    kind == "npcAttack" || kind == "npcPhase"
  }

  predicate EndsWith(s: string, suffix: string) {
    |suffix| <= |s| && s[|s| - |suffix|..] == suffix
  }

  // ---------------------------------------------------------------- well-formedness

  ghost predicate DistinctActors(actors: seq<Actor>) {
    forall i, j :: 0 <= i < j < |actors| ==> actors[i].id != actors[j].id
  }

  /** An NPC spawns and dies within the timeline, and dies after it spawns. */
  ghost predicate LifetimeOk(totalTicks: int, a: Actor) {
    a.Npc? ==>
      var spawn := if a.spawnTick.Some? then a.spawnTick.value else 0;
      0 <= spawn < totalTicks && (a.deathTick.Some? ==> 0 <= a.deathTick.value < totalTicks && spawn < a.deathTick.value)
  }

  ghost predicate ActorsOk(totalTicks: int, actors: seq<Actor>) {
    DistinctActors(actors) && forall i :: 0 <= i < |actors| ==> LifetimeOk(totalTicks, actors[i])
  }

  ghost predicate Known(actors: seq<Actor>, id: string) {
    exists i :: 0 <= i < |actors| && actors[i].id == id
  }

  ghost predicate RowsOk(d: Document) {
    d.rowOrder.Some? ==> forall i :: 0 <= i < |d.rowOrder.value| ==> Known(d.actors, d.rowOrder.value[i])
  }

  /** The display range lies within the timeline, and does not end before it starts. */
  ghost predicate DisplayOk(d: Document) {
    (d.startTick.Some? ==> 0 <= d.startTick.value < d.totalTicks) &&
    (d.endTick.Some? ==> 0 <= d.endTick.value < d.totalTicks) &&
    (d.startTick.Some? && d.endTick.Some? ==> d.startTick.value <= d.endTick.value)
  }

  function Numbers<T>(items: seq<T>, number: T -> int): (ns: seq<int>)
    ensures |ns| == |items| && forall i :: 0 <= i < |items| ==> ns[i] == number(items[i])
  {
    seq(|items|, i requires 0 <= i < |items| => number(items[i]))
  }

  function TickNumbers(ticks: seq<Tick>): seq<int> {
    Numbers(ticks, (t: Tick) => t.tick)
  }

  function PhaseNumbers(phases: seq<Phase>): seq<int> {
    Numbers(phases, (p: Phase) => p.tick)
  }

  ghost predicate Increasing(ns: seq<int>) {
    forall i, j :: 0 <= i < j < |ns| ==> ns[i] < ns[j]
  }

  ghost predicate NumbersOk(totalTicks: int, ns: seq<int>) {
    Increasing(ns) && forall i :: 0 <= i < |ns| ==> 0 <= ns[i] < totalTicks
  }

  /** An action an actor of the given type may perform, with an existing target. */
  ghost predicate ActionOk(actors: seq<Actor>, t: ActorType, a: Action) {
    (a.kind in ["npcAttack", "npcPhase"] ==> t == NPC) && (a.kind in ["attack", "spell", "utility", "death"] ==> t == PLAYER) &&
    (a.kind == "attack" && a.specCost.Some? ==> a.attackType.Some? && exists name :: a.attackType.value == name + "_SPEC") &&
    (a.targetActorId.Some? ==> Known(actors, a.targetActorId.value))
  }

  ghost predicate DistinctKinds(actions: seq<Action>) {
    forall i, j :: 0 <= i < j < |actions| ==> actions[i].kind != actions[j].kind
  }

  ghost predicate AliveAt(a: Actor, tick: int) {
    a.Npc? ==> (a.spawnTick.Some? ==> a.spawnTick.value <= tick) && (a.spawnTick.None? ==> 0 <= tick) &&
               (a.deathTick.Some? ==> tick <= a.deathTick.value)
  }

  /** A cell names an existing actor, alive at the tick, performing allowed and distinct actions. */
  ghost predicate CellOk(actors: seq<Actor>, tick: int, c: Cell) {
    Known(actors, c.actorId) &&
    forall i :: 0 <= i < |actors| && actors[i].id == c.actorId ==>
      AliveAt(actors[i], tick) &&
      (c.actions.Some? ==>
        DistinctKinds(c.actions.value) &&
        forall k :: 0 <= k < |c.actions.value| ==> ActionOk(actors, actors[i].Type(), c.actions.value[k]))
  }

  ghost predicate CellsOk(actors: seq<Actor>, t: Tick) {
    (forall i, j :: 0 <= i < j < |t.cells| ==> t.cells[i].actorId != t.cells[j].actorId) &&
    (forall i :: 0 <= i < |t.cells| ==> CellOk(actors, t.tick, t.cells[i]))
  }

  ghost predicate WellFormed(d: Document) {
    ActorsOk(d.totalTicks, d.actors) && RowsOk(d) && DisplayOk(d) &&
    NumbersOk(d.totalTicks, TickNumbers(d.ticks)) &&
    (forall i :: 0 <= i < |d.ticks| ==> CellsOk(d.actors, d.ticks[i])) &&
    (d.phases.Some? ==> NumbersOk(d.totalTicks, PhaseNumbers(d.phases.value)))
  }

  // ---------------------------------------------------------------- actors by ID

  function TypeMap(actors: seq<Actor>): map<string, ActorType> {
    if actors == [] then map[]
    else
      var last := actors[|actors| - 1];
      TypeMap(actors[..|actors| - 1])[last.id := last.Type()]
  }

  lemma {:induction false} TypeMapKeys(actors: seq<Actor>, id: string)
    ensures id in TypeMap(actors) <==> Known(actors, id)
    decreases |actors|
  {
    if actors != [] {
      var init := actors[..|actors| - 1];
      TypeMapKeys(init, id);
      assert Known(actors, id) <==> Known(init, id) || actors[|actors| - 1].id == id by {
        if Known(init, id) {
          var i :| 0 <= i < |init| && init[i].id == id;
          assert actors[i].id == id;
        }
      }
    }
  }

  /** With distinct IDs the map holds exactly each actor's type. */
  lemma {:induction false} TypeMapExact(actors: seq<Actor>, i: nat)
    requires DistinctActors(actors) && i < |actors|
    ensures actors[i].id in TypeMap(actors) && TypeMap(actors)[actors[i].id] == actors[i].Type()
    decreases |actors|
  {
    if i < |actors| - 1 {
      TypeMapExact(actors[..|actors| - 1], i);
    }
  }
}
