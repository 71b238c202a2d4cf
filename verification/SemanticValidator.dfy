/** The semantic validator: a run of checks that collects errors. */
module SemanticValidator {
  import opened Options
  import opened BcfDocument

  /** The two lists of numbered items that are checked for order and bounds. */
  datatype Numbered = TICKS | PHASES

  /** A violated rule with the indices that locate it in the document. */
  datatype Error =
    | DuplicateActor(actor: nat)
    | SpawnOutOfBounds(actor: nat)
    | DeathOutOfBounds(actor: nat)
    | DeathBeforeSpawn(actor: nat)
    | UnknownRow(row: nat)
    | StartOutOfBounds
    | StartAfterEnd
    | EndOutOfBounds
    | DuplicateNumber(list: Numbered, item: nat)
    | OutOfOrder(list: Numbered, item: nat)
    | NumberOutOfBounds(list: Numbered, item: nat)
    | DuplicateCell(tick: nat, cell: nat)
    | UnknownActor(tick: nat, cell: nat)
    | BeforeSpawn(tick: nat, cell: nat)
    | AfterDeath(tick: nat, cell: nat)
    | WrongActorType(tick: nat, cell: nat, action: nat)
    | DuplicateAction(tick: nat, cell: nat, action: nat)
    | SpecCostNotAllowed(tick: nat, cell: nat, action: nat)
    | UnknownTarget(tick: nat, cell: nat, action: nat)
  {
    predicate OfActors() {
      DuplicateActor? || SpawnOutOfBounds? || DeathOutOfBounds? || DeathBeforeSpawn?
    }

    predicate OfNumbers() {
      DuplicateNumber? || OutOfOrder? || NumberOutOfBounds?
    }

    predicate OfActions() {
      WrongActorType? || DuplicateAction? || SpecCostNotAllowed? || UnknownTarget?
    }

    predicate OfCells() {
      DuplicateCell? || UnknownActor? || BeforeSpawn? || AfterDeath? || OfActions()
    }
  }

  datatype NpcLifecycle = NpcLifecycle(spawnTick: int, deathTick: Option<int>)

  // ---------------------------------------------------------------- the maps the validator fills

  function LifecycleMap(actors: seq<Actor>): map<string, NpcLifecycle> {
    if actors == [] then map[]
    else
      var last, rest := actors[|actors| - 1], LifecycleMap(actors[..|actors| - 1]);
      if last.Npc? then rest[last.id := NpcLifecycle(last.spawnTick.GetOr(0), last.deathTick)] else rest
  }

  lemma MapsSnoc(actors: seq<Actor>, a: Actor)
    ensures TypeMap(actors + [a]) == TypeMap(actors)[a.id := a.Type()]
    ensures LifecycleMap(actors + [a]) ==
      if a.Npc? then LifecycleMap(actors)[a.id := NpcLifecycle(a.spawnTick.GetOr(0), a.deathTick)] else LifecycleMap(actors)
  {
    assert (actors + [a])[..|actors|] == actors;
  }

  /** With distinct IDs the map holds exactly the NPCs' lifecycles. */
  lemma {:induction false} LifecycleMapExact(actors: seq<Actor>, i: nat)
    requires DistinctActors(actors) && i < |actors|
    ensures actors[i].id in LifecycleMap(actors) <==> actors[i].Npc?
    ensures actors[i].Npc? ==>
      LifecycleMap(actors)[actors[i].id] == NpcLifecycle(actors[i].spawnTick.GetOr(0), actors[i].deathTick)
    decreases |actors|
  {
    var init := actors[..|actors| - 1];
    if i < |init| {
      LifecycleMapExact(init, i);
    } else {
      LifecycleKeys(init, actors[i].id);
    }
  }

  lemma {:induction false} LifecycleKeys(actors: seq<Actor>, id: string)
    ensures id in LifecycleMap(actors) ==> Known(actors, id)
    decreases |actors|
  {
    if actors != [] {
      var init := actors[..|actors| - 1];
      LifecycleKeys(init, id);
      if Known(init, id) {
        var i :| 0 <= i < |init| && init[i].id == id;
        assert actors[i].id == id;
      }
      assert actors[|actors| - 1].id == id ==> Known(actors, id);
    }
  }

  // ---------------------------------------------------------------- violations

  type Types = map<string, ActorType>
  type Lives = map<string, NpcLifecycle>

  ghost predicate LifetimeError(totalTicks: int, a: Actor, e: Error) {
    a.Npc? &&
    match e
    case SpawnOutOfBounds(_) => !(0 <= a.spawnTick.GetOr(0) < totalTicks)
    case DeathOutOfBounds(_) => a.deathTick.Some? && !(0 <= a.deathTick.value < totalTicks)
    case DeathBeforeSpawn(_) => a.deathTick.Some? && a.deathTick.value <= a.spawnTick.GetOr(0)
    case _ => false
  }

  ghost predicate ActorError(totalTicks: int, actors: seq<Actor>, e: Error)
    requires e.OfActors()
  {
    e.actor < |actors| &&
    if e.DuplicateActor? then exists j :: 0 <= j < e.actor && actors[j].id == actors[e.actor].id
    else LifetimeError(totalTicks, actors[e.actor], e)
  }

  ghost predicate RowError(types: Types, rows: Option<seq<string>>, e: Error) {
    e.UnknownRow? && rows.Some? && e.row < |rows.value| && rows.value[e.row] !in types
  }

  ghost predicate DisplayError(d: Document, e: Error) {
    match e
    case StartOutOfBounds => d.startTick.Some? && !d.InBounds(d.startTick.value)
    case StartAfterEnd => d.startTick.Some? && d.endTick.Some? && d.startTick.value > d.endTick.value
    case EndOutOfBounds => d.endTick.Some? && !d.InBounds(d.endTick.value)
    case _ => false
  }

  ghost predicate NumberError(totalTicks: int, ns: seq<int>, e: Error)
    requires e.OfNumbers()
  {
    e.item < |ns| &&
    match e
    case DuplicateNumber(_, i) => exists k :: 0 <= k < i && ns[k] == ns[i]
    case OutOfOrder(_, i) => i > 0 && ns[i] < ns[i - 1]
    case NumberOutOfBounds(_, i) => !(0 <= ns[i] < totalTicks)
  }

  /** What is wrong with an action by itself. */
  ghost predicate ActionError(types: Types, actorId: string, a: Action, e: Error) {
    match e
    case WrongActorType(_, _, _) =>
      actorId in types &&
      ((IsNpcAction(a.kind) && types[actorId] != NPC) || (IsPlayerAction(a.kind) && types[actorId] != PLAYER))
    case SpecCostNotAllowed(_, _, _) => a.kind == "attack" && a.specCost.Some? && !EndsWith(a.attackType.GetOr(""), "_SPEC")
    case UnknownTarget(_, _, _) => a.targetActorId.Some? && a.targetActorId.value !in types
    case _ => false
  }

  ghost predicate ActionsError(types: Types, actorId: string, actions: seq<Action>, e: Error)
    requires e.OfActions()
  {
    e.action < |actions| &&
    if e.DuplicateAction? then exists i :: 0 <= i < e.action && actions[i].kind == actions[e.action].kind
    else ActionError(types, actorId, actions[e.action], e)
  }

  /** What is wrong with a cell by itself. */
  ghost predicate CellError(types: Types, lives: Lives, tick: int, c: Cell, e: Error) {
    match e
    case UnknownActor(_, _) => c.actorId !in types
    case BeforeSpawn(_, _) => c.actorId in lives && tick < lives[c.actorId].spawnTick
    case AfterDeath(_, _) =>
      c.actorId in lives && lives[c.actorId].deathTick.Some? && tick > lives[c.actorId].deathTick.value
    case _ => e.OfActions() && c.actions.Some? && ActionsError(types, c.actorId, c.actions.value, e)
  }

  ghost predicate CellsError(types: Types, lives: Lives, t: Tick, e: Error)
    requires e.OfCells()
  {
    e.cell < |t.cells| &&
    if e.DuplicateCell? then exists i :: 0 <= i < e.cell && t.cells[i].actorId == t.cells[e.cell].actorId
    else CellError(types, lives, t.tick, t.cells[e.cell], e)
  }

  ghost predicate TicksError(types: Types, lives: Lives, ticks: seq<Tick>, e: Error) {
    e.OfCells() && e.tick < |ticks| && CellsError(types, lives, ticks[e.tick], e)
  }

  ghost predicate ListError(totalTicks: int, list: Numbered, ns: seq<int>, e: Error) {
    e.OfNumbers() && e.list == list && NumberError(totalTicks, ns, e)
  }

  /** The document violates the rule at the place that the error names. */
  ghost predicate Violates(d: Document, e: Error) {
    (e.OfActors() && ActorError(d.totalTicks, d.actors, e)) || RowError(TypeMap(d.actors), d.rowOrder, e) ||
    DisplayError(d, e) || ListError(d.totalTicks, TICKS, TickNumbers(d.ticks), e) ||
    TicksError(TypeMap(d.actors), LifecycleMap(d.actors), d.ticks, e) ||
    (d.phases.Some? && ListError(d.totalTicks, PHASES, PhaseNumbers(d.phases.value), e))
  }

  // ---------------------------------------------------------------- the validator

  class SemanticValidator {
    const doc: Document
    var errors: seq<Error>
    var actors: map<string, ActorType>
    var npcLifecycles: map<string, NpcLifecycle>

    constructor (doc: Document)
      ensures this.doc == doc && errors == [] && actors == map[] && npcLifecycles == map[]
    {
      this.doc, errors, actors, npcLifecycles := doc, [], map[], map[];
    }

    method Validate() returns (result: seq<Error>)
      requires errors == [] && actors == map[] && npcLifecycles == map[]
      modifies this
      ensures result == errors
      ensures forall e :: e in errors <==> Violates(doc, e)
    {
      hide ActorError, RowError, DisplayError, ListError, TicksError;
      ValidateActors();
      ValidateRowOrder();
      ValidateDisplayRange();
      ValidateTicks();
      ValidatePhases();
      return errors;
    }

    /** Fills the actor maps, and reports every repeated ID and every illegal lifetime. */
    method ValidateActors()
      requires actors == map[] && npcLifecycles == map[]
      modifies this
      ensures actors == TypeMap(doc.actors) && npcLifecycles == LifecycleMap(doc.actors)
      ensures forall e :: e in errors <==> e in old(errors) || (e.OfActors() && ActorError(doc.totalTicks, doc.actors, e))
    {
      hide TypeMap, LifecycleMap, LifetimeError;
      NoActors();
      for i := 0 to |doc.actors|
        invariant actors == TypeMap(doc.actors[..i]) && npcLifecycles == LifecycleMap(doc.actors[..i])
        invariant forall e :: e in errors <==>
          e in old(errors) || (e.OfActors() && e.actor < i && ActorError(doc.totalTicks, doc.actors, e))
      {
        var actor := doc.actors[i];
        ghost var before := doc.actors[..i];
        assert doc.actors[..i + 1] == before + [actor];
        TypeMapKeys(before, actor.id);
        MapsSnoc(before, actor);
        assert Known(before, actor.id) <==> exists j :: 0 <= j < i && doc.actors[j].id == actor.id;
        if actor.id in actors {
          errors := errors + [DuplicateActor(i)];
        }
        actors := actors[actor.id := actor.Type()];
        if actor.Npc? {
          ValidateNpcLifecycle(actor, i);
        } else {
          NoLifetime(doc.totalTicks, actor);
        }
      }
      assert doc.actors[..|doc.actors|] == doc.actors;
    }

    method ValidateNpcLifecycle(actor: Actor, index: nat)
      requires actor.Npc?
      modifies this`errors, this`npcLifecycles
      ensures npcLifecycles == old(npcLifecycles)[actor.id := NpcLifecycle(actor.spawnTick.GetOr(0), actor.deathTick)]
      ensures forall e :: e in errors <==>
        e in old(errors) || (e.OfActors() && !e.DuplicateActor? && e.actor == index && LifetimeError(doc.totalTicks, actor, e))
    {
      var spawnTick, deathTick := actor.spawnTick.GetOr(0), actor.deathTick;
      if spawnTick < 0 || spawnTick >= doc.totalTicks {
        errors := errors + [SpawnOutOfBounds(index)];
      }
      if deathTick.Some? {
        if deathTick.value < 0 || deathTick.value >= doc.totalTicks {
          errors := errors + [DeathOutOfBounds(index)];
        }
        if deathTick.value <= spawnTick {
          errors := errors + [DeathBeforeSpawn(index)];
        }
      }
      npcLifecycles := npcLifecycles[actor.id := NpcLifecycle(spawnTick, deathTick)];
    }

    method ValidateRowOrder()
      modifies this`errors
      ensures forall e :: e in errors <==> e in old(errors) || RowError(actors, doc.rowOrder, e)
    {
      if doc.rowOrder.None? {
        return;
      }
      var rowOrder := doc.rowOrder.value;
      for i := 0 to |rowOrder|
        invariant forall e :: e in errors <==>
          e in old(errors) || (e.UnknownRow? && e.row < i && rowOrder[e.row] !in actors)
      {
        if rowOrder[i] !in actors {
          errors := errors + [UnknownRow(i)];
        }
      }
    }

    method ValidateDisplayRange()
      modifies this`errors
      ensures forall e :: e in errors <==> e in old(errors) || DisplayError(doc, e)
    {
      if doc.startTick.Some? {
        if !doc.InBounds(doc.startTick.value) {
          errors := errors + [StartOutOfBounds];
        }
        if doc.endTick.Some? && doc.startTick.value > doc.endTick.value {
          errors := errors + [StartAfterEnd];
        }
      }
      if doc.endTick.Some? && !doc.InBounds(doc.endTick.value) {
        errors := errors + [EndOutOfBounds];
      }
    }

    /** Reports every repeated number, every one below its predecessor and every one out of bounds. */
    method ValidateTickIndexedArray(items: seq<int>, list: Numbered)
      modifies this`errors
      ensures forall e :: e in errors <==> e in old(errors) || ListError(doc.totalTicks, list, items, e)
    {
      var seenTicks: set<int>, lastTick: Option<int> := {}, None;
      for i := 0 to |items|
        invariant seenTicks == set k | 0 <= k < i :: items[k]
        invariant lastTick == if i == 0 then None else Some(items[i - 1])
        invariant forall e :: e in errors <==>
          e in old(errors) || (e.OfNumbers() && e.list == list && e.item < i && NumberError(doc.totalTicks, items, e))
      {
        ghost var before := errors;
        if items[i] in seenTicks {
          errors := errors + [DuplicateNumber(list, i)];
        }
        assert items[i] in seenTicks <==> NumberError(doc.totalTicks, items, DuplicateNumber(list, i));
        seenTicks := seenTicks + {items[i]};
        if lastTick.Some? && items[i] < lastTick.value {
          errors := errors + [OutOfOrder(list, i)];
        }
        lastTick := Some(items[i]);
        if !doc.InBounds(items[i]) {
          errors := errors + [NumberOutOfBounds(list, i)];
        }
        assert forall e :: e in errors <==>
          e in before || (e.OfNumbers() && e.list == list && e.item == i && NumberError(doc.totalTicks, items, e));
      }
    }

    method ValidateTicks()
      modifies this`errors
      ensures forall e :: e in errors <==>
        e in old(errors) || ListError(doc.totalTicks, TICKS, TickNumbers(doc.ticks), e) ||
        TicksError(actors, npcLifecycles, doc.ticks, e)
    {
      hide ListError, CellsError;
      ValidateTickIndexedArray(TickNumbers(doc.ticks), TICKS);
      ghost var before := errors;
      for i := 0 to |doc.ticks|
        invariant forall e :: e in errors <==>
          e in before || (e.OfCells() && e.tick < i && CellsError(actors, npcLifecycles, doc.ticks[e.tick], e))
      {
        ValidateCells(doc.ticks[i], i);
      }
    }

    method ValidatePhases()
      modifies this`errors
      ensures forall e :: e in errors <==>
        e in old(errors) ||
        (doc.phases.Some? && ListError(doc.totalTicks, PHASES, PhaseNumbers(doc.phases.value), e))
    {
      if doc.phases.Some? {
        ValidateTickIndexedArray(PhaseNumbers(doc.phases.value), PHASES);
      }
    }

    method ValidateCells(tick: Tick, tickIndex: nat)
      modifies this`errors
      ensures forall e :: e in errors <==>
        e in old(errors) || (e.OfCells() && e.tick == tickIndex && CellsError(actors, npcLifecycles, tick, e))
    {
      hide CellError;
      var seenActorIds: set<string> := {};
      for j := 0 to |tick.cells|
        invariant seenActorIds == set k | 0 <= k < j :: tick.cells[k].actorId
        invariant forall e :: e in errors <==>
          e in old(errors) ||
          (e.OfCells() && e.tick == tickIndex && e.cell < j && CellsError(actors, npcLifecycles, tick, e))
      {
        var cell := tick.cells[j];
        assert cell.actorId in seenActorIds <==> exists k :: 0 <= k < j && tick.cells[k].actorId == cell.actorId;
        if cell.actorId in seenActorIds {
          errors := errors + [DuplicateCell(tickIndex, j)];
        }
        seenActorIds := seenActorIds + {cell.actorId};
        ValidateCell(cell, tickIndex, j, tick.tick);
      }
    }

    method ValidateCell(cell: Cell, tickIndex: nat, cellIndex: nat, tickNumber: int)
      modifies this`errors
      ensures forall e :: e in errors <==>
        e in old(errors) ||
        (e.OfCells() && e.tick == tickIndex && e.cell == cellIndex && !e.DuplicateCell? &&
         CellError(actors, npcLifecycles, tickNumber, cell, e))
    {
      hide ActionsError;
      if cell.actorId !in actors {
        errors := errors + [UnknownActor(tickIndex, cellIndex)];
      }
      if cell.actorId in npcLifecycles {
        var lifecycle := npcLifecycles[cell.actorId];
        if tickNumber < lifecycle.spawnTick {
          errors := errors + [BeforeSpawn(tickIndex, cellIndex)];
        }
        if lifecycle.deathTick.Some? && tickNumber > lifecycle.deathTick.value {
          errors := errors + [AfterDeath(tickIndex, cellIndex)];
        }
      }
      if cell.actions.Some? {
        ValidateActions(cell.actions.value, cell.actorId, tickIndex, cellIndex);
      }
    }

    method ValidateActions(actions: seq<Action>, actorId: string, tickIndex: nat, cellIndex: nat)
      modifies this`errors
      ensures forall e :: e in errors <==>
        e in old(errors) ||
        (e.OfActions() && e.tick == tickIndex && e.cell == cellIndex && ActionsError(actors, actorId, actions, e))
    {
      hide ActionError;
      var actionTypes: set<string> := {};
      for k := 0 to |actions|
        invariant actionTypes == set i | 0 <= i < k :: actions[i].kind
        invariant forall e :: e in errors <==>
          e in old(errors) ||
          (e.OfActions() && e.tick == tickIndex && e.cell == cellIndex && e.action < k &&
           ActionsError(actors, actorId, actions, e))
      {
        assert actions[k].kind in actionTypes <==> exists i :: 0 <= i < k && actions[i].kind == actions[k].kind;
        ValidateAction(actions[k], actorId, tickIndex, cellIndex, k, actionTypes);
        actionTypes := actionTypes + {actions[k].kind};
      }
    }

    method ValidateAction(
        action: Action, actorId: string, tickIndex: nat, cellIndex: nat, k: nat, actionTypes: set<string>)
      modifies this`errors
      ensures forall e :: e in errors <==>
        e in old(errors) ||
        (e.OfActions() && e.tick == tickIndex && e.cell == cellIndex && e.action == k &&
         if e.DuplicateAction? then action.kind in actionTypes else ActionError(actors, actorId, action, e))
    {
      hide EndsWith;
      if actorId in actors {
        if IsNpcAction(action.kind) && actors[actorId] != NPC {
          errors := errors + [WrongActorType(tickIndex, cellIndex, k)];
        } else if IsPlayerAction(action.kind) && actors[actorId] != PLAYER {
          errors := errors + [WrongActorType(tickIndex, cellIndex, k)];
        }
      }
      if action.kind in actionTypes {
        errors := errors + [DuplicateAction(tickIndex, cellIndex, k)];
      }
      if action.kind == "attack" && action.specCost.Some? && !EndsWith(action.attackType.GetOr(""), "_SPEC") {
        errors := errors + [SpecCostNotAllowed(tickIndex, cellIndex, k)];
      }
      if action.targetActorId.Some? && action.targetActorId.value !in actors {
        errors := errors + [UnknownTarget(tickIndex, cellIndex, k)];
      }
    }
  }

  lemma NoActors()
    ensures TypeMap([]) == map[] && LifecycleMap([]) == map[]
  {
  }

  lemma NoLifetime(totalTicks: int, a: Actor)
    requires !a.Npc?
    ensures forall e :: !LifetimeError(totalTicks, a, e)
  {
  }

  // ---------------------------------------------------------------- the rules in terms of the maps

  ghost predicate ActionPasses(types: Types, actorId: string, a: Action) {
    (actorId in types ==>
      (IsNpcAction(a.kind) ==> types[actorId] == NPC) && (IsPlayerAction(a.kind) ==> types[actorId] == PLAYER)) &&
    (a.kind == "attack" && a.specCost.Some? ==> EndsWith(a.attackType.GetOr(""), "_SPEC")) &&
    (a.targetActorId.Some? ==> a.targetActorId.value in types)
  }

  ghost predicate ActionsPass(types: Types, actorId: string, actions: seq<Action>) {
    DistinctKinds(actions) && forall k :: 0 <= k < |actions| ==> ActionPasses(types, actorId, actions[k])
  }

  ghost predicate CellPasses(types: Types, lives: Lives, tick: int, c: Cell) {
    c.actorId in types &&
    (c.actorId in lives ==>
      lives[c.actorId].spawnTick <= tick &&
      (lives[c.actorId].deathTick.Some? ==> tick <= lives[c.actorId].deathTick.value)) &&
    (c.actions.Some? ==> ActionsPass(types, c.actorId, c.actions.value))
  }

  ghost predicate CellsPass(types: Types, lives: Lives, t: Tick) {
    (forall i, j :: 0 <= i < j < |t.cells| ==> t.cells[i].actorId != t.cells[j].actorId) &&
    (forall i :: 0 <= i < |t.cells| ==> CellPasses(types, lives, t.tick, t.cells[i]))
  }

  lemma EndsWithMeans(s: string, suffix: string)
    ensures EndsWith(s, suffix) <==> exists start :: s == start + suffix
  {
    if EndsWith(s, suffix) {
      assert s == s[..|s| - |suffix|] + suffix;
    }
  }

  lemma ActionKinds(a: Action)
    ensures IsNpcAction(a.kind) <==> a.kind in ["npcAttack", "npcPhase"]
    ensures IsPlayerAction(a.kind) <==> a.kind in ["attack", "spell", "utility", "death"]
    ensures EndsWith(a.attackType.GetOr(""), "_SPEC") <==>
      a.attackType.Some? && exists name :: a.attackType.value == name + "_SPEC"
  {
    EndsWithMeans(a.attackType.GetOr(""), "_SPEC");
  }

  /** With distinct actors the map-based check of a cell is the declarative rule. */
  lemma CellPassesIsOk(actors: seq<Actor>, tick: int, c: Cell)
    requires DistinctActors(actors)
    ensures CellPasses(TypeMap(actors), LifecycleMap(actors), tick, c) <==> CellOk(actors, tick, c)
  {
    hide IsNpcAction, IsPlayerAction, EndsWith;
    TypeMapKeys(actors, c.actorId);
    if Known(actors, c.actorId) {
      var i :| 0 <= i < |actors| && actors[i].id == c.actorId;
      TypeMapExact(actors, i);
      LifecycleMapExact(actors, i);
      assert forall j :: 0 <= j < |actors| && actors[j].id == c.actorId ==> j == i;
      if c.actions.Some? {
        forall k | 0 <= k < |c.actions.value|
          ensures ActionPasses(TypeMap(actors), c.actorId, c.actions.value[k]) <==>
                  ActionOk(actors, actors[i].Type(), c.actions.value[k])
        {
          var a := c.actions.value[k];
          ActionKinds(a);
          if a.targetActorId.Some? {
            TypeMapKeys(actors, a.targetActorId.value);
          }
        }
      }
    }
  }

  ghost predicate RowsPass(types: Types, d: Document) {
    d.rowOrder.Some? ==> forall i :: 0 <= i < |d.rowOrder.value| ==> d.rowOrder.value[i] in types
  }

  lemma RowsPassIsOk(d: Document)
    ensures RowsPass(TypeMap(d.actors), d) <==> RowsOk(d)
  {
    if d.rowOrder.Some? {
      forall i | 0 <= i < |d.rowOrder.value|
        ensures d.rowOrder.value[i] in TypeMap(d.actors) <==> Known(d.actors, d.rowOrder.value[i])
      {
        TypeMapKeys(d.actors, d.rowOrder.value[i]);
      }
    }
  }

  lemma CellsPassIsOk(actors: seq<Actor>, t: Tick)
    requires DistinctActors(actors)
    ensures CellsPass(TypeMap(actors), LifecycleMap(actors), t) <==> CellsOk(actors, t)
  {
    hide CellPasses, CellOk;
    forall i | 0 <= i < |t.cells|
      ensures CellPasses(TypeMap(actors), LifecycleMap(actors), t.tick, t.cells[i]) <==> CellOk(actors, t.tick, t.cells[i])
    {
      CellPassesIsOk(actors, t.tick, t.cells[i]);
    }
  }

  // ---------------------------------------------------------------- no violation anywhere

  lemma ActorsWithoutErrors(totalTicks: int, actors: seq<Actor>)
    ensures ActorsOk(totalTicks, actors) <==> forall e: Error :: e.OfActors() ==> !ActorError(totalTicks, actors, e)
  {
    if forall e: Error :: e.OfActors() ==> !ActorError(totalTicks, actors, e) {
      forall i, j | 0 <= i < j < |actors|
        ensures actors[i].id != actors[j].id
      {
        assert !ActorError(totalTicks, actors, DuplicateActor(j));
      }
      forall i | 0 <= i < |actors|
        ensures LifetimeOk(totalTicks, actors[i])
      {
        assert !ActorError(totalTicks, actors, SpawnOutOfBounds(i)) && !ActorError(totalTicks, actors, DeathOutOfBounds(i)) &&
               !ActorError(totalTicks, actors, DeathBeforeSpawn(i));
      }
    }
  }

  lemma RowsWithoutErrors(d: Document)
    ensures RowsOk(d) <==> forall e :: !RowError(TypeMap(d.actors), d.rowOrder, e)
  {
    RowsPassIsOk(d);
    if d.rowOrder.Some? && forall e :: !RowError(TypeMap(d.actors), d.rowOrder, e) {
      forall i | 0 <= i < |d.rowOrder.value|
        ensures d.rowOrder.value[i] in TypeMap(d.actors)
      {
        assert !RowError(TypeMap(d.actors), d.rowOrder, UnknownRow(i));
      }
    }
  }

  lemma DisplayWithoutErrors(d: Document)
    ensures DisplayOk(d) <==> forall e :: !DisplayError(d, e)
  {
    assert DisplayOk(d) <==>
      !DisplayError(d, StartOutOfBounds) && !DisplayError(d, StartAfterEnd) && !DisplayError(d, EndOutOfBounds);
  }

  /** Numbers none of which is below its predecessor ascend. */
  lemma {:induction false} Ascends(ns: seq<int>, i: nat, j: nat)
    requires i <= j < |ns| && forall k :: 0 < k < |ns| ==> ns[k - 1] <= ns[k]
    ensures ns[i] <= ns[j]
    decreases j
  {
    if i < j {
      Ascends(ns, i, j - 1);
    }
  }

  lemma NumbersWithoutErrors(totalTicks: int, list: Numbered, ns: seq<int>)
    ensures NumbersOk(totalTicks, ns) <==> forall e :: !ListError(totalTicks, list, ns, e)
  {
    if forall e :: !ListError(totalTicks, list, ns, e) {
      forall k | 0 < k < |ns|
        ensures ns[k - 1] <= ns[k]
      {
        assert !ListError(totalTicks, list, ns, OutOfOrder(list, k));
      }
      forall i, j | 0 <= i < j < |ns|
        ensures ns[i] < ns[j]
      {
        Ascends(ns, i, j);
        assert !ListError(totalTicks, list, ns, DuplicateNumber(list, j));
      }
      forall i | 0 <= i < |ns|
        ensures 0 <= ns[i] < totalTicks
      {
        assert !ListError(totalTicks, list, ns, NumberOutOfBounds(list, i));
      }
    }
  }

  lemma ActionsWithoutErrors(types: Types, actorId: string, actions: seq<Action>, t: nat, c: nat)
    ensures ActionsPass(types, actorId, actions) <==>
      forall e: Error :: e.OfActions() && e.tick == t && e.cell == c ==> !ActionsError(types, actorId, actions, e)
  {
    hide EndsWith, IsNpcAction, IsPlayerAction;
    if forall e: Error :: e.OfActions() && e.tick == t && e.cell == c ==> !ActionsError(types, actorId, actions, e) {
      forall i, j | 0 <= i < j < |actions|
        ensures actions[i].kind != actions[j].kind
      {
        assert !ActionsError(types, actorId, actions, DuplicateAction(t, c, j));
      }
      forall k | 0 <= k < |actions|
        ensures ActionPasses(types, actorId, actions[k])
      {
        assert !ActionsError(types, actorId, actions, WrongActorType(t, c, k)) &&
               !ActionsError(types, actorId, actions, SpecCostNotAllowed(t, c, k)) &&
               !ActionsError(types, actorId, actions, UnknownTarget(t, c, k));
      }
    }
  }

  lemma CellWithoutErrors(types: Types, lives: Lives, tick: int, cell: Cell, t: nat, c: nat)
    ensures CellPasses(types, lives, tick, cell) <==>
      forall e: Error :: e.OfCells() && e.tick == t && e.cell == c && !e.DuplicateCell? ==>
        !CellError(types, lives, tick, cell, e)
  {
    hide ActionsPass, ActionsError;
    if cell.actions.Some? {
      ActionsWithoutErrors(types, cell.actorId, cell.actions.value, t, c);
    }
    if forall e: Error :: e.OfCells() && e.tick == t && e.cell == c && !e.DuplicateCell? ==>
         !CellError(types, lives, tick, cell, e)
    {
      assert !CellError(types, lives, tick, cell, UnknownActor(t, c));
      assert !CellError(types, lives, tick, cell, BeforeSpawn(t, c)) && !CellError(types, lives, tick, cell, AfterDeath(t, c));
      assert cell.actions.Some? ==>
        forall e: Error :: e.OfActions() && e.tick == t && e.cell == c ==>
          CellError(types, lives, tick, cell, e) == ActionsError(types, cell.actorId, cell.actions.value, e);
    }
  }

  lemma CellsWithoutErrors(types: Types, lives: Lives, tick: Tick, t: nat)
    ensures CellsPass(types, lives, tick) <==>
      forall e: Error :: e.OfCells() && e.tick == t ==> !CellsError(types, lives, tick, e)
  {
    hide CellPasses, CellError;
    forall c | 0 <= c < |tick.cells|
      ensures CellPasses(types, lives, tick.tick, tick.cells[c]) <==>
        forall e: Error :: e.OfCells() && e.tick == t && e.cell == c && !e.DuplicateCell? ==>
          !CellError(types, lives, tick.tick, tick.cells[c], e)
    {
      CellWithoutErrors(types, lives, tick.tick, tick.cells[c], t, c);
    }
    if forall e: Error :: e.OfCells() && e.tick == t ==> !CellsError(types, lives, tick, e) {
      forall i, j | 0 <= i < j < |tick.cells|
        ensures tick.cells[i].actorId != tick.cells[j].actorId
      {
        assert !CellsError(types, lives, tick, DuplicateCell(t, j));
      }
      forall c, e: Error | 0 <= c < |tick.cells| && e.OfCells() && e.tick == t && e.cell == c && !e.DuplicateCell?
        ensures !CellError(types, lives, tick.tick, tick.cells[c], e)
      {
        assert !CellsError(types, lives, tick, e);
      }
    }
  }

  lemma TicksWithoutErrors(types: Types, lives: Lives, ticks: seq<Tick>)
    ensures (forall t :: 0 <= t < |ticks| ==> CellsPass(types, lives, ticks[t])) <==>
      forall e :: !TicksError(types, lives, ticks, e)
  {
    hide CellsPass, CellsError;
    forall t | 0 <= t < |ticks|
      ensures CellsPass(types, lives, ticks[t]) <==>
        forall e: Error :: e.OfCells() && e.tick == t ==> !TicksError(types, lives, ticks, e)
    {
      CellsWithoutErrors(types, lives, ticks[t], t);
    }
  }

  /** A document is well-formed exactly when no rule is violated anywhere in it. */
  lemma WellFormedWithoutErrors(d: Document)
    ensures WellFormed(d) <==> forall e :: !Violates(d, e)
  {
    hide ActorsOk, RowsOk, DisplayOk, NumbersOk, CellsOk, CellsPass, ActorError, RowError, DisplayError, ListError, TicksError;
    ActorsWithoutErrors(d.totalTicks, d.actors);
    RowsWithoutErrors(d);
    DisplayWithoutErrors(d);
    NumbersWithoutErrors(d.totalTicks, TICKS, TickNumbers(d.ticks));
    TicksWithoutErrors(TypeMap(d.actors), LifecycleMap(d.actors), d.ticks);
    if d.phases.Some? {
      NumbersWithoutErrors(d.totalTicks, PHASES, PhaseNumbers(d.phases.value));
    }
    if forall e :: !Violates(d, e) {
      forall e: Error
        ensures e.OfActors() ==> !ActorError(d.totalTicks, d.actors, e)
        ensures !RowError(TypeMap(d.actors), d.rowOrder, e) && !DisplayError(d, e)
        ensures !ListError(d.totalTicks, TICKS, TickNumbers(d.ticks), e)
        ensures !TicksError(TypeMap(d.actors), LifecycleMap(d.actors), d.ticks, e)
        ensures d.phases.Some? ==> !ListError(d.totalTicks, PHASES, PhaseNumbers(d.phases.value), e)
      {
        assert !Violates(d, e);
      }
    }
    if ActorsOk(d.totalTicks, d.actors) {
      DistinctWhenOk(d.totalTicks, d.actors);
      forall t | 0 <= t < |d.ticks|
        ensures CellsPass(TypeMap(d.actors), LifecycleMap(d.actors), d.ticks[t]) <==> CellsOk(d.actors, d.ticks[t])
      {
        CellsPassIsOk(d.actors, d.ticks[t]);
      }
      assert (forall t :: 0 <= t < |d.ticks| ==> CellsPass(TypeMap(d.actors), LifecycleMap(d.actors), d.ticks[t])) <==>
             (forall t :: 0 <= t < |d.ticks| ==> CellsOk(d.actors, d.ticks[t]));
    }
    if WellFormed(d) {
      forall e
        ensures !Violates(d, e)
      {
        assert e.OfActors() ==> !ActorError(d.totalTicks, d.actors, e);
        assert !RowError(TypeMap(d.actors), d.rowOrder, e);
        assert !DisplayError(d, e);
        assert !ListError(d.totalTicks, TICKS, TickNumbers(d.ticks), e);
        assert !TicksError(TypeMap(d.actors), LifecycleMap(d.actors), d.ticks, e);
        assert d.phases.Some? ==> !ListError(d.totalTicks, PHASES, PhaseNumbers(d.phases.value), e);
      }
    }
    assert (forall e :: !Violates(d, e)) ==> WellFormed(d);
  }

  lemma DistinctWhenOk(totalTicks: int, actors: seq<Actor>)
    requires ActorsOk(totalTicks, actors)
    ensures DistinctActors(actors)
  {
  }

  /** The validator reports exactly the violations of the rules, and so none for the well-formed documents only. */
  method ValidateSemantics(doc: Document) returns (errors: seq<Error>)
    ensures forall e :: e in errors <==> Violates(doc, e)
    ensures errors == [] <==> WellFormed(doc)
  {
    var validator := new SemanticValidator(doc);
    errors := validator.Validate();
    WellFormedWithoutErrors(doc);
    assert errors != [] ==> errors[0] in errors;
  }
}
