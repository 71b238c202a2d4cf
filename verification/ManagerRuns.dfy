/** What the single operations come to over whole runs, with other steps in between. */
module ManagerRuns {
  import opened Options
  import opened RedisStore
  import opened ChallengeStage
  import opened Transactions
  import opened ManagerJobs
  import opened LifecycleStore
  import opened ManagerCommits
  import opened ManagerEffects
  import opened ChallengeLifecycle

  lemma RunOfCommit(j: Job, body: Body, s: Store, obs: seq<Obs>)
    requires body == BodyOf(j) && body(obs).Commit? && RunsAlone(body, s, obs, body(obs).writes)
    ensures Act(j, obs) == body(obs) && RunsAlone(BodyOf(j), s, obs, Act(j, obs).writes)
  {
  }

  /** A job that commits has, in effect, run alone on the store it found. */
  lemma CommittedRan(s: System, tid: Tid, next: Option<Job>, s': System)
    requires SystemOk(s) && SystemStep(s, Do(Exec(tid), next), s')
    ensures tid in s.jobs && tid in s.db.runs
    ensures var j, obs := s.jobs[tid], s.db.runs[tid].obs;
      Ran(j, s.db.store, obs, s'.db.store) && Act(j, obs).writes != [] && Next(j, obs, next) && JobOk(j, s.db.store, s.born)
    ensures StoreOk(s.db.store, s.born)
  {
    ReadsAreCurrent(s, tid, s'.db);
    CommitReadsCurrent(s.db, tid, s'.db);
    RunOfCommit(s.jobs[tid], s.db.runs[tid].body, s.db.store, s.db.runs[tid].obs);
    hide Act, Next, Inv, JobsOk, RunsOk, WinsOk, ClaimsOk, StoreOk;
  }

  // ---------------------------------------------------------------- joining

  /** The challenge that a job's commit lets a client join. */
  function Joins(j: Job, obs: seq<Obs>): Option<(Uuid, Joiner)> {
    match j
    case Start(joiner, party, stage, _) =>
      (match Decide(party, stage, obs)
       case JoinNow(last) => Some((last, joiner))
       case _ => None)
    case Activate(u, joiner, _, _) => Some((u, joiner))
    case Join(u, joiner, _) => Some((u, joiner))
    case Add(u, joiner) => Some((u, joiner))
    case _ => None
  }

  lemma NothingUnlessActive(j: Job, s: Store, obs: seq<Obs>, s': Store)
    requires (j.Join? || j.Add?) && Ran(j, s, obs, s') && Act(j, obs).writes != []
    ensures s.Hash(j.u).state == Some(ACTIVE)
  {
    RanReads(j, s, obs, s', j.u, 0);
    OtherState(s.Hash(j.u));
  }

  lemma JoinRan(j: Job, s: Store, obs: seq<Obs>, s': Store)
    requires Ran(j, s, obs, s') && Act(j, obs).writes != [] && Joins(j, obs).Some?
    ensures var (u, joiner) := Joins(j, obs).value; JoinedAt(s, s', u, joiner, PositionOf(s'.Hash(u)))
  {
    hide Ran, Act, Decide;
    match j
    case Start(_, _, _, _) => StartJoins(j, s, obs, s', Joins(j, obs).value.0);
    case Activate(u, joiner, party, stage) => ActivateEffect(u, joiner, party, stage, s, obs, s');
    case Join(u, joiner, retries) =>
      NothingUnlessActive(j, s, obs, s');
      JoinEffect(u, joiner, retries, s, obs, s');
    case Add(u, joiner) =>
      NothingUnlessActive(j, s, obs, s');
      AddEffect(u, joiner, s, obs, s');
  }

  /**
   * However a client comes to a challenge, by creating it, joining it at once or later or by being
   * added: once that commits, it is listed where the challenge is, points at it and keeps its last
   * completed stage, and the other clients stay.
   */
  lemma JoinersAreListed(states: seq<System>, events: seq<Happening>, n: nat)
    requires Behavior(states, events) && n < |events| && events[n].Do? && events[n].step.Exec?
    requires var tid := events[n].step.tid;
      tid in states[n].jobs && tid in states[n].db.runs && Joins(states[n].jobs[tid], states[n].db.runs[tid].obs).Some?
    ensures var tid, s, s' := events[n].step.tid, states[n].db.store, states[n + 1].db.store;
      var (u, joiner) := Joins(states[n].jobs[tid], states[n].db.runs[tid].obs).value;
      JoinedAt(s, s', u, joiner, PositionOf(s'.Hash(u)))
  {
    SystemOkHolds(states, events, n);
    var s, e := states[n], events[n];
    CommittedRan(s, e.step.tid, e.next, states[n + 1]);
    hide SystemOk, SystemStep, Ran, Act, Joins;
    JoinRan(s.jobs[e.step.tid], s.db.store, s.db.runs[e.step.tid].obs, states[n + 1].db.store);
  }

  // ---------------------------------------------------------------- cleanups run out of retries

  /** The step commits a cleanup of the challenge that goes by its current timeout. */
  ghost predicate TriesCleanup(s: System, e: Happening, u: Uuid) {
    e.Do? && e.step.Exec? && e.step.tid in s.jobs && u in s.db.store.timeouts &&
    var j := s.jobs[e.step.tid];
    j.Cleanup? && j.u == u && j.due == Some(s.db.store.timeouts[u])
  }

  /** Such a cleanup that was not put off because a stage is being processed. */
  ghost predicate Tries(s: System, e: Happening, u: Uuid) {
    TriesCleanup(s, e, u) && !RecentlyProcessing(s.db.store.Hash(u), s.jobs[e.step.tid].now)
  }

  ghost predicate Pending(s: System, u: Uuid) {
    s.db.store.Hash(u).state == Some(ACTIVE) && u in s.db.store.timeouts
  }

  function Retries(s: System, u: Uuid): nat
    requires Pending(s, u)
  {
    s.db.store.timeouts[u].maxRetryAttempts
  }

  lemma TryStep(s: System, e: Happening, s': System, u: Uuid)
    requires SystemOk(s) && SystemStep(s, e, s') && TriesCleanup(s, e, u) && Pending(s, u)
    ensures !Tries(s, e, u) && Pending(s', u) ==> Retries(s', u) == Retries(s, u)
    ensures Tries(s, e, u) ==>
      if s.db.store.Clients(u) == map[] || Retries(s, u) == 0 then s'.db.store.Hash(u).state == Some(CLEANUP)
      else Pending(s', u) && Retries(s', u) == Retries(s, u) - 1
  {
    var tid := e.step.tid;
    CommittedRan(s, tid, e.next, s');
    var j := s.jobs[tid];
    hide SystemOk, SystemStep, Ran, Act;
    assert j == Cleanup(u, Some(s.db.store.timeouts[u]), j.now);
    CleanupRound(u, j.now, s.db.store, s.db.runs[tid].obs, s'.db.store);
  }

  /** How many cleanups were tried, and found clients, between two states. */
  ghost function Deferrals(states: seq<System>, events: seq<Happening>, m: nat, n: nat, u: Uuid): nat
    requires m <= n <= |events| <= |states|
    decreases n
  {
    if n == m then 0
    else Deferrals(states, events, m, n - 1, u) + if Tries(states[n - 1], events[n - 1], u) then 1 else 0
  }

  /** The timeout changes only by cleanups that go by it. */
  ghost predicate NotReset(states: seq<System>, events: seq<Happening>, m: nat, n: nat, u: Uuid)
    requires m <= n <= |events| < |states|
  {
    forall k :: m <= k < n ==>
      TriesCleanup(states[k], events[k], u) ||
      (Pending(states[k], u) && Pending(states[k + 1], u) ==> Retries(states[k + 1], u) == Retries(states[k], u))
  }

  /**
   * While a challenge stays active and its timeout is not set anew, each cleanup that is tried uses up
   * one of the retries, whatever else happens in between.
   */
  lemma {:induction false} RetriesUsedUp(states: seq<System>, events: seq<Happening>, m: nat, n: nat, u: Uuid)
    requires Behavior(states, events) && m <= n <= |events| && NotReset(states, events, m, n, u)
    requires forall k :: m <= k <= n ==> Pending(states[k], u)
    ensures Deferrals(states, events, m, n, u) + Retries(states[n], u) == Retries(states[m], u)
    decreases n
  {
    hide SystemOk, SystemStep, Pending, TriesCleanup, Retries;
    if m < n {
      RetriesUsedUp(states, events, m, n - 1, u);
      SystemOkHolds(states, events, n - 1);
      assert SystemStep(states[n - 1], events[n - 1], states[n - 1 + 1]);
      if TriesCleanup(states[n - 1], events[n - 1], u) {
        TryStep(states[n - 1], events[n - 1], states[n], u);
        StillPending(states[n - 1], states[n], u);
      } else {
        assert states[n - 1 + 1] == states[n];
      }
    }
  }

  lemma StillPending(s: System, s': System, u: Uuid)
    requires Pending(s, u) && Pending(s', u)
    ensures s'.db.store.Hash(u).state != Some(CLEANUP)
  {
  }

  /** So clients that stay connected hold it for no more tries than it has retries: the next one retires it. */
  lemma RetriesRunOut(states: seq<System>, events: seq<Happening>, m: nat, n: nat, u: Uuid)
    requires Behavior(states, events) && m <= n < |events| && NotReset(states, events, m, n, u)
    requires forall k :: m <= k <= n ==> Pending(states[k], u)
    ensures Deferrals(states, events, m, n, u) <= Retries(states[m], u)
    ensures Tries(states[n], events[n], u) && Deferrals(states, events, m, n, u) == Retries(states[m], u) ==>
      states[n + 1].db.store.Hash(u).state == Some(CLEANUP)
  {
    RetriesUsedUp(states, events, m, n, u);
    hide Pending, SystemOk, SystemStep;
    if Tries(states[n], events[n], u) {
      SystemOkHolds(states, events, n);
      TryStep(states[n], events[n], states[n + 1], u);
    }
  }

  // ---------------------------------------------------------------- stage updates

  /** The step commits a client's STARTED update for the challenge's current stage. */
  ghost predicate StartsStage(s: System, e: Happening, u: Uuid, c: ClientId, retriable: int -> bool) {
    e.Do? && e.step.Exec? && e.step.tid in s.jobs && s.db.store.Hash(u).stage.Some? &&
    s.jobs[e.step.tid] ==
      ApplyUpdate(u, c, Update(false, Some(StageUpdate(s.db.store.Hash(u).stage.value, STARTED))), retriable)
  }

  function StandingOf(s: System, u: Uuid): Standing {
    Standing(s.db.store.Hash(u), s.db.store.Clients(u))
  }

  /** The challenge's stage and attempt and its clients are as they were. */
  ghost predicate Untouched(s: System, s': System, u: Uuid) {
    PositionOf(s'.db.store.Hash(u)) == PositionOf(s.db.store.Hash(u)) && s'.db.store.Clients(u) == s.db.store.Clients(u) &&
    (s.db.store.Hash(u).stage.Some? <==> s'.db.store.Hash(u).stage.Some?)
  }

  /** In the store, such an update does to stage, attempt and clients what it does to them by themselves. */
  lemma StartedRan(u: Uuid, c: ClientId, retriable: int -> bool, s: Store, obs: seq<Obs>, s': Store)
    requires s.Hash(u).stage.Some? && c in s.Clients(u)
    requires Ran(ApplyUpdate(u, c, Update(false, Some(StageUpdate(s.Hash(u).stage.value, STARTED))), retriable), s, obs, s')
    ensures var r := Started(retriable, Standing(s.Hash(u), s.Clients(u)), c, TimeoutStateOf(s.Hash(u)));
      s'.Hash(u).stage == r.hash.stage && s'.Hash(u).attempt == r.hash.attempt && s'.Clients(u) == r.clients
  {
    var update := StageUpdate(s.Hash(u).stage.value, STARTED);
    StartedWrites(u, c, Update(false, Some(update)), retriable, s, obs, s');
    StartedOutcome(u, c, update, retriable, s.Hash(u), s.Clients(u));
    hide Apply, Ran, UpdateStage;
    var o := StageOutcome(u, c, update, retriable, s.Hash(u), s.Clients(u));
    var m := if s.Hash(u).timeoutState == Some(CLEANUP_DUE) then Apply(ClearTimeout(u), s) else s;
    ClearTimeoutApplied(u, s);
    SetClientApplied(u, c, o.client, m);
    SetFieldsApplied(u, o.patch, Apply(SetClient(u, c, o.client), m));
  }

  /** How far the clients are once some of them have started attempt `k` + 1. */
  ghost predicate SomeStarted(s: System, u: Uuid, stage: int, k: int, ids: set<ClientId>, started: seq<ClientId>) {
    var h, clients := s.db.store.Hash(u), s.db.store.Clients(u);
    h.stage == Some(stage) && h.attempt == Some(if started == [] then k else k + 1) && clients.Keys == ids &&
    forall c :: c in ids ==> clients[c].attempt == Some(if c in started then k + 1 else k)
  }

  /** What one such step does to stage, attempt and clients. */
  lemma StartedAt(s: System, e: Happening, s': System, u: Uuid, c: ClientId, k: int, begun: bool, retriable: int -> bool)
    requires SystemOk(s) && SystemStep(s, e, s') && StartsStage(s, e, u, c, retriable)
    requires var h, clients := s.db.store.Hash(u), s.db.store.Clients(u);
      retriable(h.stage.value) && h.attempt == Some(if begun then k + 1 else k) && c in clients && clients[c].attempt == Some(k)
    ensures var t, t' := StandingOf(s, u), StandingOf(s', u);
      t'.hash.stage == t.hash.stage && t'.hash.attempt == Some(k + 1) && t'.clients.Keys == t.clients.Keys &&
      t'.clients[c].attempt == Some(k + 1) && forall d :: d in t.clients && d != c ==> t'.clients[d] == t.clients[d]
  {
    CommittedRan(s, e.step.tid, e.next, s');
    hide Ran, SystemOk, SystemStep, Started, Act, Next;
    StartedRan(u, c, retriable, s.db.store, s.db.runs[e.step.tid].obs, s'.db.store);
    StartedStep(retriable, StandingOf(s, u), c, k, begun, TimeoutStateOf(s.db.store.Hash(u)));
  }

  lemma StartedHere(
      s: System, e: Happening, s': System, u: Uuid, stage: int, k: int, ids: set<ClientId>, started: seq<ClientId>,
      c: ClientId, retriable: int -> bool)
    requires SystemOk(s) && SystemStep(s, e, s') && StartsStage(s, e, u, c, retriable)
    requires SomeStarted(s, u, stage, k, ids, started) && retriable(stage) && c in ids && c !in started
    ensures SomeStarted(s', u, stage, k, ids, started + [c])
  {
    hide SystemOk, SystemStep, StartsStage;
    assert c in s.db.store.Clients(u).Keys;
    StartedAt(s, e, s', u, c, k, started != [], retriable);
    assert forall d :: d in started + [c] <==> d == c || d in started;
  }

  /** The updates of `order` come at the steps `at`, and no other step touches the challenge's stage, attempt or clients. */
  ghost predicate Starting(
      states: seq<System>, events: seq<Happening>, m: nat, n: nat, u: Uuid, order: seq<ClientId>, at: seq<nat>,
      retriable: int -> bool)
    requires m <= n <= |events| < |states|
  {
    |at| == |order| && (forall i, j :: 0 <= i < j < |at| ==> at[i] < at[j]) &&
    (forall i :: 0 <= i < |at| ==> m <= at[i] < n) &&
    (forall i :: 0 <= i < |at| ==> StartsStage(states[at[i]], events[at[i]], u, order[i], retriable)) &&
    (forall t :: m <= t < n && t !in at ==> Untouched(states[t], states[t + 1], u))
  }

  /** The last step is the last of the updates. */
  lemma StartsLast(
      states: seq<System>, events: seq<Happening>, m: nat, n: nat, u: Uuid, order: seq<ClientId>, at: seq<nat>,
      retriable: int -> bool)
    requires m < n <= |events| < |states| && Starting(states, events, m, n, u, order, at, retriable) && n - 1 in at
    ensures order != []
    ensures Starting(states, events, m, n - 1, u, order[..|order| - 1], at[..|at| - 1], retriable)
    ensures StartsStage(states[n - 1], events[n - 1], u, order[|order| - 1], retriable)
  {
    hide StartsStage, Untouched;
    LastIs(at, n);
  }

  /** The last step leaves the challenge's position and clients alone. */
  lemma StartsBefore(
      states: seq<System>, events: seq<Happening>, m: nat, n: nat, u: Uuid, order: seq<ClientId>, at: seq<nat>,
      retriable: int -> bool)
    requires m < n <= |events| < |states| && Starting(states, events, m, n, u, order, at, retriable) && n - 1 !in at
    ensures Starting(states, events, m, n - 1, u, order, at, retriable)
    ensures Untouched(states[n - 1], states[n], u)
  {
    hide StartsStage, Untouched;
    forall i | 0 <= i < |at|
      ensures at[i] < n - 1
    {
      assert at[i] in at;
    }
    assert Untouched(states[n - 1], states[n - 1 + 1], u);
  }

  lemma StepsOfStarting(
      states: seq<System>, events: seq<Happening>, m: nat, n: nat, u: Uuid, order: seq<ClientId>, at: seq<nat>,
      retriable: int -> bool)
    requires m <= n <= |events| < |states| && Starting(states, events, m, n, u, order, at, retriable)
    ensures |order| <= n - m
  {
    StepsSuffice(at, m, n);
  }

  lemma {:induction false} StartingSoFar(
      states: seq<System>, events: seq<Happening>, m: nat, n: nat, u: Uuid, order: seq<ClientId>, at: seq<nat>,
      stage: int, k: int, ids: set<ClientId>, retriable: int -> bool)
    requires Behavior(states, events) && m <= n <= |events| && Starting(states, events, m, n, u, order, at, retriable)
    requires SomeStarted(states[m], u, stage, k, ids, []) && retriable(stage)
    requires (forall i :: 0 <= i < |order| ==> order[i] in ids) && forall i, j :: 0 <= i < j < |order| ==> order[i] != order[j]
    ensures SomeStarted(states[n], u, stage, k, ids, order)
    decreases n
  {
    hide SystemOk, SystemStep, SomeStarted, StartsStage, Untouched, Starting;
    if n == m {
      StepsOfStarting(states, events, m, n, u, order, at, retriable);
    } else if n - 1 in at {
      StartsLast(states, events, m, n, u, order, at, retriable);
      var init, last := order[..|order| - 1], order[|order| - 1];
      StartingSoFar(states, events, m, n - 1, u, init, at[..|at| - 1], stage, k, ids, retriable);
      SystemOkHolds(states, events, n - 1);
      assert SystemStep(states[n - 1], events[n - 1], states[n - 1 + 1]);
      assert order == init + [last];
      StartedHere(states[n - 1], events[n - 1], states[n], u, stage, k, ids, init, last, retriable);
    } else {
      StartsBefore(states, events, m, n, u, order, at, retriable);
      StartingSoFar(states, events, m, n - 1, u, order, at, stage, k, ids, retriable);
      UntouchedKeeps(states[n - 1], states[n], u, stage, k, ids, order);
    }
  }

  /** There are no more updates than steps. */
  lemma {:induction false} StepsSuffice(at: seq<nat>, m: nat, n: nat)
    requires m <= n && (forall i :: 0 <= i < |at| ==> m <= at[i] < n)
    requires forall i, j :: 0 <= i < j < |at| ==> at[i] < at[j]
    ensures |at| <= n - m
    decreases |at|
  {
    if at != [] {
      var last := |at| - 1;
      StepsSuffice(at[..last], m, at[last]);
    }
  }

  lemma LastIs(at: seq<nat>, n: nat)
    requires n > 0 && n - 1 in at && (forall i, j :: 0 <= i < j < |at| ==> at[i] < at[j])
    requires forall i :: 0 <= i < |at| ==> at[i] < n
    ensures at[|at| - 1] == n - 1
    ensures forall i :: 0 <= i < |at| - 1 ==> at[i] < n - 1
    ensures forall t :: t in at <==> t == n - 1 || t in at[..|at| - 1]
  {
    var i :| 0 <= i < |at| && at[i] == n - 1;
    assert at[i] <= at[|at| - 1];
    assert at == at[..|at| - 1] + [at[|at| - 1]];
  }

  lemma UntouchedKeeps(s: System, s': System, u: Uuid, stage: int, k: int, ids: set<ClientId>, started: seq<ClientId>)
    requires SomeStarted(s, u, stage, k, ids, started) && Untouched(s, s', u)
    ensures SomeStarted(s', u, stage, k, ids, started)
  {
  }

  /**
   * In any run in which all clients are at attempt `k` of a retriable stage and each of them starts it
   * once more, in any order and with any steps in between that touch neither the challenge's position
   * nor its clients, the attempt rises exactly once and every client ends at it.
   */
  lemma AttemptRisesOnceInRuns(
      states: seq<System>, events: seq<Happening>, m: nat, n: nat, u: Uuid, order: seq<ClientId>, at: seq<nat>, k: int,
      retriable: int -> bool)
    requires Behavior(states, events) && m <= n <= |events| && Starting(states, events, m, n, u, order, at, retriable)
    requires var s := StandingOf(states[m], u);
      s.hash.stage.Some? && retriable(s.hash.stage.value) && AllAt(s, Some(k)) && order != [] &&
      (forall c :: c in s.clients <==> c in order) && forall i, j :: 0 <= i < j < |order| ==> order[i] != order[j]
    ensures var s, s' := StandingOf(states[m], u), StandingOf(states[n], u);
      s'.hash.stage == s.hash.stage && s'.clients.Keys == s.clients.Keys && AllAt(s', Some(k + 1))
  {
    var s := StandingOf(states[m], u);
    hide Starting, SystemStep;
    assert SomeStarted(states[m], u, s.hash.stage.value, k, s.clients.Keys, []);
    forall i | 0 <= i < |order|
      ensures order[i] in s.clients.Keys
    {
      assert order[i] in order;
    }
    StartingSoFar(states, events, m, n, u, order, at, s.hash.stage.value, k, s.clients.Keys, retriable);
  }

  /** Whenever a client's STARTED update commits, the client is exactly where the challenge is. */
  lemma StartedClientsInStep(
      states: seq<System>, events: seq<Happening>, n: nat, u: Uuid, c: ClientId, update: StageUpdate, retriable: int -> bool)
    requires Behavior(states, events) && n < |events| && events[n].Do? && events[n].step.Exec?
    requires events[n].step.tid in states[n].jobs && update.status == STARTED
    requires states[n].jobs[events[n].step.tid] == ApplyUpdate(u, c, Update(false, Some(update)), retriable)
    requires c in states[n].db.store.Clients(u) && update.stage >= states[n].PositionAt(u).stage
    requires LIVE <= states[n].PhaseOf(u) <= RETIRED
    ensures c in states[n + 1].db.store.Clients(u)
    ensures var client := states[n + 1].db.store.Clients(u)[c];
      states[n + 1].PositionAt(u) == Position(client.stage, client.attempt) && client.stage == update.stage
  {
    SystemOkHolds(states, events, n);
    var s, e := states[n], events[n];
    CommittedRan(s, e.step.tid, e.next, states[n + 1]);
    assert ChallengeOk(s.db.store, s.born, u);
    hide SystemOk, SystemStep, Ran, Act;
    StartedInStep(u, c, Update(false, Some(update)), retriable, s.db.store, s.db.runs[e.step.tid].obs, states[n + 1].db.store);
  }

  /**
   * Whenever a client's finished stage commits, it is recorded with the client; and if then every
   * client is done with the stage, the job goes on to complete it, otherwise the stage end timer runs.
   */
  lemma FinishedStagesAreFollowed(
      states: seq<System>, events: seq<Happening>, n: nat, u: Uuid, c: ClientId, update: StageUpdate, retriable: int -> bool)
    requires Behavior(states, events) && n < |events| && events[n].Do? && events[n].step.Exec?
    requires events[n].step.tid in states[n].jobs && (update.status == COMPLETED || update.status == WIPED)
    requires states[n].jobs[events[n].step.tid] == ApplyUpdate(u, c, Update(false, Some(update)), retriable)
    requires c in states[n].db.store.Clients(u) && update.stage >= StageOf(states[n].db.store.Hash(u))
    requires states[n].db.store.Hash(u) != NO_HASH
    ensures var was := states[n].db.store.Clients(u)[c]; var clients := states[n + 1].db.store.Clients(u);
      clients == states[n].db.store.Clients(u)[c :=
        Client(was.token, was.participant, true, update.stage, was.attempt, update.status, update.stage, was.attempt)]
    ensures var h := states[n].db.store.Hash(u); var clients := states[n + 1].db.store.Clients(u); var next := events[n].next;
      if forall d :: d in clients ==> DoneWith(h, clients[d]) then
        next.Some? && next.value.MarkProcessing? && next.value.u == u && next.value.stage == update.stage &&
        next.value.attempt == clients[c].attempt
      else next.None? && states[n + 1].db.store.Hash(u).timeoutState == Some(STAGE_END) && u in states[n + 1].db.store.timeouts
    ensures var h := states[n].db.store.Hash(u); var clients := states[n].db.store.Clients(u);
      (exists d :: d in clients && d != c && clients[d].stage == StageOf(h) &&
                   (clients[d].status == ENTERED || clients[d].status == STARTED))
      ==> events[n].next.None?
  {
    SystemOkHolds(states, events, n);
    var s, e := states[n], events[n];
    CommittedRan(s, e.step.tid, e.next, states[n + 1]);
    hide SystemOk, SystemStep, Ran, Act, Next, StoreOk, HasFinished, DoneWith;
    FinishedIsFollowed(u, c, Update(false, Some(update)), retriable, s.db.store, s.born, s.db.runs[e.step.tid].obs,
                       states[n + 1].db.store, e.next);
    DoneIs(s.db.store.Hash(u), states[n + 1].db.store.Clients(u));
    HeldBack(s.db.store.Hash(u), s.db.store.Clients(u), states[n + 1].db.store.Clients(u), c);
  }

  lemma HeldBack(h: Hash, before: map<ClientId, Client>, after: map<ClientId, Client>, c: ClientId)
    requires c in after && after == before[c := after[c]]
    ensures
      (exists d :: d in before && d != c && before[d].stage == StageOf(h) &&
                   (before[d].status == ENTERED || before[d].status == STARTED))
      ==> !forall d :: d in after ==> DoneWith(h, after[d])
  {
    if d :| d in before && d != c && before[d].stage == StageOf(h) &&
            (before[d].status == ENTERED || before[d].status == STARTED) {
      assert d in after && !DoneWith(h, after[d]);
    }
  }
}
