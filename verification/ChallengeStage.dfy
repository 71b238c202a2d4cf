/** Stages and attempts: the challenge processor's part, and what stage updates do to a challenge and its clients. */
module ChallengeStage {
  import opened Options
  import opened RedisStore

  const UNKNOWN_STAGE := 0

  /** A stage and, for a stage that can be retried, the number of its attempt. */
  datatype Position = Position(stage: int, attempt: Option<int>)

  predicate AttemptLe(a: Option<int>, b: Option<int>) {
    a.None? || (b.Some? && a.value <= b.value)
  }

  /** Lexicographic order on stage and attempt. */
  predicate PositionLe(p: Position, q: Position) {
    p.stage < q.stage || (p.stage == q.stage && AttemptLe(p.attempt, q.attempt))
  }

  /** Where starting a stage leads. */
  function Start(retriable: int -> bool, p: Position, stage: int): Position {
    if stage != p.stage then Position(stage, if retriable(stage) then Some(1) else None)
    else if retriable(stage) then Position(stage, Some(p.attempt.GetOr(0) + 1))
    else p
  }

  /** The fields that starting a stage marks as changed. */
  function StartPatch(retriable: int -> bool, p: Position, stage: int): Patch {
    var q := Start(retriable, p, stage);
    var attempt := if q.attempt.Some? then Put(q.attempt.value) else Clear;
    if stage != p.stage then NO_CHANGE.(stage := Put(q.stage), attempt := attempt)
    else if retriable(stage) then NO_CHANGE.(attempt := attempt)
    else NO_CHANGE
  }

  function PositionOf(h: Hash): Position {
    Position(h.stage.GetOr(UNKNOWN_STAGE), h.attempt)
  }

  /** The stage-tracking part of a challenge processor. */
  class ChallengeProcessor {
    const retriable: int -> bool
    var stage: int
    var stageAttempt: Option<int>
    var pendingUpdates: Patch

    constructor (retriable: int -> bool, stage: int, stageAttempt: Option<int>)
      ensures this.retriable == retriable && At() == Position(stage, stageAttempt) && pendingUpdates == NO_CHANGE
    {
      this.retriable, this.stage, this.stageAttempt, pendingUpdates := retriable, stage, stageAttempt, NO_CHANGE;
    }

    function At(): Position
      reads this
    {
      Position(stage, stageAttempt)
    }

    /** Moves to a stage, or to the next attempt of the current one if it can be retried. */
    method StartStage(stage: int)
      modifies this
      ensures this.stage == stage
      ensures stage != old(this.stage) ==> stageAttempt == if retriable(stage) then Some(1) else None
      ensures stage == old(this.stage) && retriable(stage) ==>
        stageAttempt == Some(if old(stageAttempt).Some? then old(stageAttempt).value + 1 else 1)
      ensures stage == old(this.stage) && !retriable(stage) ==> stageAttempt == old(stageAttempt)
      ensures At() == Start(retriable, old(At()), stage)
      ensures old(pendingUpdates) == NO_CHANGE ==> pendingUpdates == StartPatch(retriable, old(At()), stage)
    {
      if stage != this.stage {
        this.stage := stage;
        stageAttempt := if retriable(stage) then Some(1) else None;
        pendingUpdates := pendingUpdates.(
          stage := Put(stage), attempt := if stageAttempt.Some? then Put(stageAttempt.value) else Clear);
      } else if retriable(stage) {
        stageAttempt := Some(stageAttempt.GetOr(0) + 1);
        pendingUpdates := pendingUpdates.(attempt := Put(stageAttempt.value));
      }
    }

    method FinalizeUpdates() returns (updates: Patch)
      modifies this`pendingUpdates
      ensures updates == old(pendingUpdates) && pendingUpdates == NO_CHANGE
    {
      updates := pendingUpdates;
      pendingUpdates := NO_CHANGE;
    }
  }

  /** The updates a processor hands over lead a stored challenge exactly to where it moved. */
  lemma PatchLeadsToStart(retriable: int -> bool, h: Hash, stage: int)
    requires h.stage.Some?
    ensures PositionOf(StartPatch(retriable, PositionOf(h), stage).On(h)) == Start(retriable, PositionOf(h), stage)
  {
  }

  lemma StartAdvances(retriable: int -> bool, p: Position, stage: int)
    requires stage >= p.stage
    ensures PositionLe(p, Start(retriable, p, stage))
  {
  }

  // ---------------------------------------------------------------- stage updates

  datatype StageUpdate = StageUpdate(stage: int, status: StageStatus)

  datatype TimeoutAction = LeaveTimeout | ClearIt | AwaitOthers

  /** What a stage update does: the client's new record, the challenge's changes, and what follows. */
  datatype Outcome =
    | Rejected
    | Applied(client: Client, patch: Patch, finishing: Option<(int, Option<int>)>, timeout: TimeoutAction)

  predicate IsFinished(s: StageStatus) {
    s == COMPLETED || s == WIPED
  }

  function MaxAttempt(a: Option<int>, b: Option<int>): Option<int> {
    if a.None? then b else if b.None? then a else Some(if a.value >= b.value then a.value else b.value)
  }

  predicate HasFinished(p: Position, c: Client) {
    c.stage > p.stage || (IsFinished(c.status) && MaxAttempt(c.attempt, p.attempt) == c.attempt)
  }

  /** Whether a STARTED update begins a stage: a new one, or the next attempt of the client's current one. */
  predicate Begins(p: Position, c: Client, stage: int) {
    stage != p.stage || (p.attempt.Some? && c.attempt == p.attempt)
  }

  function UpdateStage(
      retriable: int -> bool, p: Position, timeoutState: TimeoutState, clients: map<ClientId, Client>, id: ClientId,
      update: StageUpdate): Outcome
  {
    if update.stage < p.stage || id !in clients then Rejected
    else
      var us := clients[id].(stage := update.stage, status := update.status, active := true);
      if IsFinished(update.status) then
        var done := us.(lastStage := update.stage, lastAttempt := us.attempt);
        var all := clients[id := done];
        if forall c :: c in all ==> HasFinished(p, all[c]) then
          Applied(done, NO_CHANGE, Some((update.stage, us.attempt)),
                  if timeoutState != CHALLENGE_END then ClearIt else LeaveTimeout)
        else
          Applied(done, NO_CHANGE, None, if timeoutState != STAGE_END then AwaitOthers else LeaveTimeout)
      else if update.status == STARTED then
        if Begins(p, us, update.stage) then
          Applied(us.(attempt := Start(retriable, p, update.stage).attempt), StartPatch(retriable, p, update.stage), None,
                  LeaveTimeout)
        else Applied(us.(attempt := p.attempt), NO_CHANGE, None, LeaveTimeout)
      else Applied(us, NO_CHANGE, None, LeaveTimeout)
  }

  /** A STARTED update as the manager does it: through a processor made from the stored challenge. */
  method UpdateStarted(retriable: int -> bool, p: Position, clients: map<ClientId, Client>, id: ClientId, stage: int)
    returns (o: Outcome)
    ensures forall t :: o == UpdateStage(retriable, p, t, clients, id, StageUpdate(stage, STARTED))
  {
    if stage < p.stage || id !in clients {
      return Rejected;
    }
    var processor := new ChallengeProcessor(retriable, p.stage, p.attempt);
    var us := clients[id].(stage := stage, status := STARTED, active := true);
    if stage != processor.stage {
      processor.StartStage(stage);
    } else if processor.stageAttempt.Some? && us.attempt == processor.stageAttempt {
      processor.StartStage(stage);
    }
    us := us.(attempt := processor.stageAttempt);
    var updates := processor.FinalizeUpdates();
    return Applied(us, updates, None, LeaveTimeout);
  }

  /** No stage update moves a challenge backwards. */
  lemma UpdateAdvances(
      retriable: int -> bool, h: Hash, timeoutState: TimeoutState, clients: map<ClientId, Client>, id: ClientId,
      update: StageUpdate)
    requires h.stage.Some?
    ensures var r := UpdateStage(retriable, PositionOf(h), timeoutState, clients, id, update);
      r.Applied? ==> r.patch.On(h).stage.Some? && PositionLe(PositionOf(h), PositionOf(r.patch.On(h)))
  {
    PatchLeadsToStart(retriable, h, update.stage);
    if update.stage >= h.stage.value {
      StartAdvances(retriable, PositionOf(h), update.stage);
    }
  }

  // ---------------------------------------------------------------- all clients starting the same stage

  datatype Standing = Standing(hash: Hash, clients: map<ClientId, Client>)

  /** A challenge after one client's STARTED update for its stage. */
  function Started(retriable: int -> bool, s: Standing, id: ClientId, timeoutState: TimeoutState): Standing {
    var r := UpdateStage(retriable, PositionOf(s.hash), timeoutState, s.clients, id,
                         StageUpdate(PositionOf(s.hash).stage, STARTED));
    if r.Rejected? then s else Standing(r.patch.On(s.hash), s.clients[id := r.client])
  }

  function AllStarted(retriable: int -> bool, s: Standing, order: seq<ClientId>, timeoutState: TimeoutState): Standing {
    if order == [] then s
    else Started(retriable, AllStarted(retriable, s, order[..|order| - 1], timeoutState), order[|order| - 1], timeoutState)
  }

  ghost predicate AllAt(s: Standing, attempt: Option<int>) {
    s.hash.attempt == attempt && forall c :: c in s.clients ==> s.clients[c].attempt == attempt
  }

  /** One STARTED update from a client at the first attempt or behind: the first to start opens the next one. */
  lemma StartedStep(retriable: int -> bool, s: Standing, c: ClientId, k: int, begun: bool, t: TimeoutState)
    requires s.hash.stage.Some? && retriable(s.hash.stage.value) && c in s.clients
    requires s.hash.attempt == Some(if begun then k + 1 else k) && s.clients[c].attempt == Some(k)
    ensures var r := Started(retriable, s, c, t);
      r.hash.stage == s.hash.stage && r.hash.attempt == Some(k + 1) && r.clients.Keys == s.clients.Keys &&
      r.clients[c].attempt == Some(k + 1) && forall d :: d in s.clients && d != c ==> r.clients[d] == s.clients[d]
  {
  }

  /** After some of the updates, exactly their clients are at the next attempt, and so is the challenge. */
  lemma {:induction false} StartedSoFar(retriable: int -> bool, s: Standing, order: seq<ClientId>, k: int, t: TimeoutState)
    requires s.hash.stage.Some? && retriable(s.hash.stage.value) && AllAt(s, Some(k))
    requires forall i :: 0 <= i < |order| ==> order[i] in s.clients
    requires forall i, j :: 0 <= i < j < |order| ==> order[i] != order[j]
    ensures var r := AllStarted(retriable, s, order, t);
      r.hash.stage == s.hash.stage && r.clients.Keys == s.clients.Keys &&
      r.hash.attempt == Some(if order == [] then k else k + 1) &&
      forall c :: c in r.clients ==> r.clients[c].attempt == Some(if c in order then k + 1 else k)
    decreases |order|
  {
    hide Started;
    if order != [] {
      var init, last := order[..|order| - 1], order[|order| - 1];
      StartedSoFar(retriable, s, init, k, t);
      assert order == init + [last] && last !in init;
      var r := AllStarted(retriable, s, init, t);
      StartedStep(retriable, r, last, k, init != [], t);
      assert AllStarted(retriable, s, order, t) == Started(retriable, r, last, t);
      hide AllStarted;
      assert forall c :: c in order <==> c == last || c in init;
    }
  }

  /**
   * When all clients are at the current attempt of a retriable stage and each starts it once, in
   * any order, the attempt rises exactly once and every client ends at it.
   */
  lemma AttemptRisesOnce(retriable: int -> bool, s: Standing, order: seq<ClientId>, k: int, t: TimeoutState)
    requires s.hash.stage.Some? && retriable(s.hash.stage.value) && AllAt(s, Some(k))
    requires order != [] && (forall c :: c in s.clients <==> c in order)
    requires forall i, j :: 0 <= i < j < |order| ==> order[i] != order[j]
    ensures var r := AllStarted(retriable, s, order, t);
      r.hash.stage == s.hash.stage && r.clients.Keys == s.clients.Keys && AllAt(r, Some(k + 1))
  {
    hide Started;
    forall i | 0 <= i < |order|
      ensures order[i] in s.clients
    {
      assert order[i] in order;
    }
    StartedSoFar(retriable, s, order, k, t);
  }
}
