/**
 * The challenge manager as a whole: any number of requests, client events and timers, each a chain of
 * jobs, whose transactions and pipelines interleave step by step over the shared store. Any of them
 * may stop at any point. What every reachable state keeps, and what holds over whole runs.
 */
module ChallengeLifecycle {
  import opened Options
  import opened RedisStore
  import opened ChallengeStage
  import opened Transactions
  import opened ManagerJobs
  import opened LifecycleStore
  import opened ManagerCommits

  /**
   * The database with its transactions in flight, and the current job of each chain; `minted` holds
   * the identifiers generated so far, `born` the challenges that were created.
   */
  datatype System = System(db: State, jobs: map<Tid, Job>, minted: set<Uuid>, born: set<Uuid>)
  {
    function PhaseOf(u: Uuid): int {
      Phase(db.store, born, u)
    }

    function PositionAt(u: Uuid): Position {
      PositionOf(db.store.Hash(u))
    }
  }

  datatype Happening = Arrive(tid: Tid, job: Job) | Do(step: Label, next: Option<Job>)

  function Replaced(jobs: map<Tid, Job>, tid: Tid, next: Option<Job>): map<Tid, Job> {
    if next.Some? then jobs[tid := next.value] else jobs - {tid}
  }

  /** A step of the database, and what becomes of the job whose transaction it is. */
  ghost predicate Done(s: System, l: Label, next: Option<Job>, s': System) {
    match l
    case Begin(tid, body) =>
      next.None? && tid in s.jobs && body == BodyOf(s.jobs[tid]) && s'.jobs == s.jobs && s'.born == s.born
    case Exec(tid) =>
      tid in s.jobs && tid in s.db.runs &&
      var r := s.db.runs[tid]; var a := r.body(r.obs);
      a.Commit? && Next(s.jobs[tid], r.obs, next) && s'.jobs == Replaced(s.jobs, tid, next) &&
      s'.born == BornAfterAll(a.writes, s.born)
    case Return(tid) =>
      tid in s.jobs && tid in s.db.runs && Next(s.jobs[tid], s.db.runs[tid].obs, next) &&
      s'.jobs == Replaced(s.jobs, tid, next) && s'.born == s.born
    case Abort(tid) => next.None? && s'.jobs == s.jobs - {tid} && s'.born == s.born
    case _ => next.None? && s'.jobs == s.jobs && s'.born == s.born
  }

  ghost predicate SystemStep(s: System, e: Happening, s': System) {
    match e
    case Arrive(tid, job) =>
      tid !in s.jobs && Arrives(job) && s' == s.(jobs := s'.jobs, minted := s'.minted) && s'.jobs == s.jobs[tid := job] &&
      (if job.Start? then job.created !in s.minted && s'.minted == s.minted + {job.created} else s'.minted == s.minted)
    case Do(l, next) =>
      Step(s.db, l, s'.db) && s'.minted == s.minted && Done(s, l, next, s')
  }

  /** Nothing is in flight over a good store, such as the empty one or what an earlier server left. */
  ghost predicate Initial(s: System) {
    s.jobs == map[] && s.db.runs == map[] && s.db.log == [] && s.born <= s.minted && StoreOk(s.db.store, s.born)
  }

  ghost predicate Behavior(states: seq<System>, events: seq<Happening>) {
    |states| == |events| + 1 && Initial(states[0]) &&
    forall i :: 0 <= i < |events| ==> SystemStep(states[i], events[i], states[i + 1])
  }

  lemma EmptyStoreIsGood()
    ensures StoreOk(Store(map[], map[], map[], map[], map[], map[]), {})
  {
    var s := Store(map[], map[], map[], map[], map[], map[]);
    assert forall u :: ChallengeOk(s, {}, u);
    assert forall c :: PointerOk(s, {}, c);
  }

  // ---------------------------------------------------------------- the invariant

  /** No two jobs create the same challenge, and no two own the same challenge's data. */
  ghost predicate Apart(j: Job, k: Job) {
    (Mine(j).Some? ==> Mine(j) != Mine(k)) && !(IsOwner(j) && IsOwner(k) && j.u == k.u)
  }

  ghost predicate JobsOk(jobs: map<Tid, Job>, store: Store, born: set<Uuid>, minted: set<Uuid>) {
    (forall tid :: tid in jobs ==> JobOk(jobs[tid], store, born)) &&
    (forall tid :: tid in jobs ==> Mine(jobs[tid]).Some? ==> Mine(jobs[tid]).value in minted) &&
    (forall a, b :: a in jobs && b in jobs && a != b ==> Apart(jobs[a], jobs[b]))
  }

  ghost predicate RunsOk(runs: map<Tid, Run>, jobs: map<Tid, Job>, store: Store, born: set<Uuid>) {
    forall tid :: tid in runs ==>
      tid in jobs && runs[tid].body == BodyOf(jobs[tid]) && ReadingsOk(jobs[tid], runs[tid].obs, store, born)
  }

  predicate Claimed(e: Event, u: Uuid, stage: int, attempt: Option<int>) {
    SetProcessed(u, stage, attempt) in e.writes
  }

  predicate Wiped(e: Event, u: Uuid) {
    WipesIn(e.writes, u)
  }

  predicate WonBy(e: Event, u: Uuid) {
    RetiresIn(e.writes, u)
  }

  /** A challenge whose cleanup was won is at least RETIRED, and nobody won it before. */
  ghost predicate WinsOk(log: seq<Event>, store: Store, born: set<Uuid>) {
    (forall i, u :: 0 <= i < |log| && WonBy(log[i], u) ==> Phase(store, born, u) >= RETIRED) &&
    (forall i, j, u :: 0 <= i < j < |log| && WonBy(log[i], u) ==> !WonBy(log[j], u))
  }

  ghost predicate WipedBetween(log: seq<Event>, i: int, j: int, u: Uuid) {
    exists k :: i < k < j && 0 <= k < |log| && Wiped(log[k], u)
  }

  /** A claimed stage is among the processed ones until its challenge's data is deleted. */
  ghost predicate ClaimsOk(log: seq<Event>, store: Store) {
    (forall i, u, stage, attempt :: 0 <= i < |log| && Claimed(log[i], u, stage, attempt) ==>
       (stage, attempt) in store.Processed(u) || WipedBetween(log, i, |log|, u)) &&
    (forall i, j, u, stage, attempt ::
       0 <= i < j < |log| && Claimed(log[i], u, stage, attempt) && Claimed(log[j], u, stage, attempt) ==>
       WipedBetween(log, i, j, u))
  }

  ghost predicate SystemOk(s: System) {
    Inv(s.db) && StoreOk(s.db.store, s.born) && s.born <= s.minted && JobsOk(s.jobs, s.db.store, s.born, s.minted) &&
    RunsOk(s.db.runs, s.jobs, s.db.store, s.born) && WinsOk(s.db.log, s.db.store, s.born) && ClaimsOk(s.db.log, s.db.store)
  }

  // ---------------------------------------------------------------- steps that commit nothing

  lemma ArriveKeeps(s: System, tid: Tid, job: Job, s': System)
    requires SystemOk(s) && SystemStep(s, Arrive(tid, job), s')
    ensures SystemOk(s')
  {
    hide Inv, StoreOk, WinsOk, ClaimsOk, ReadingsOk;
  }

  lemma FetchKeepsReadings(j: Job, r: Run, k: Key, s: Store, born: set<Uuid>)
    requires StoreOk(s, born) && JobOk(j, s, born) && ReadingsOk(j, r.obs, s, born)
    ensures ReadingsOk(j, r.obs + [Obs(k, At(s, k))], s, born)
  {
    FreshReadingOk(j, k, s, born);
  }

  lemma QuietStepKeeps(s: System, l: Label, s': System)
    requires SystemOk(s) && SystemStep(s, Do(l, None), s') && (l.Begin? || l.Watch? || l.Fetch? || l.Conflict? || l.Abort?)
    ensures SystemOk(s')
  {
    InvStep(s.db, l, s'.db);
    if l.Fetch? {
      var r := s.db.runs[l.tid];
      FetchKeepsReadings(s.jobs[l.tid], r, r.body(r.obs).key, s.db.store, s.born);
    }
    hide Inv, StoreOk, WinsOk, ClaimsOk, JobOk, ReadingOk, Apart;
  }

  // ---------------------------------------------------------------- jobs and runs across a commit

  /** A job makes room for the one that follows it. */
  lemma ReplacedKeeps(
      jobs: map<Tid, Job>, tid: Tid, next: Option<Job>, store: Store, born: set<Uuid>, minted: set<Uuid>)
    requires tid in jobs
    requires forall t :: t in jobs && t != tid ==> JobOk(jobs[t], store, born)
    requires forall t :: t in jobs && t != tid && Mine(jobs[t]).Some? ==> Mine(jobs[t]).value in minted
    requires forall a, b :: a in jobs && b in jobs && a != tid && b != tid && a != b ==> Apart(jobs[a], jobs[b])
    requires next.Some? ==> JobOk(next.value, store, born) && (Mine(next.value).Some? ==> Mine(next.value).value in minted)
    requires next.Some? ==> forall t :: t in jobs && t != tid ==> Apart(next.value, jobs[t]) && Apart(jobs[t], next.value)
    ensures JobsOk(Replaced(jobs, tid, next), store, born, minted)
  {
    hide JobOk, Apart;
  }

  /** The job that follows stays apart from all the others. */
  lemma NextApart(j: Job, obs: seq<Obs>, next: Job, k: Job, store: Store, born: set<Uuid>)
    requires Apart(j, k) && Apart(k, j) && JobOk(k, store, born)
    requires Mine(next).Some? ==> Mine(next) == Mine(j)
    requires IsOwner(next) ==> Floor(j) != UNBORN && next.u == j.u && (IsOwner(j) || WonCleanup(j, obs))
    requires WonCleanup(j, obs) ==> Phase(store, born, j.u) < RETIRED
    ensures Apart(next, k) && Apart(k, next)
  {
  }

  lemma RunsAcross(
      before: map<Tid, Run>, after: map<Tid, Run>, jobs: map<Tid, Job>, jobs': map<Tid, Job>, tid: Tid,
      s: Store, born: set<Uuid>, s': Store, born': set<Uuid>, mine: Option<Uuid>)
    requires RunsOk(before, jobs, s, born) && Touched(before - {tid}, after, s, s') && AllMoved(s, born, s', born', mine)
    requires forall t :: t in jobs && t != tid ==> t in jobs' && jobs'[t] == jobs[t]
    ensures RunsOk(after, jobs', s', born')
  {
    forall t | t in after
      ensures t in jobs' && after[t].body == BodyOf(jobs'[t]) && ReadingsOk(jobs'[t], after[t].obs, s', born')
    {
      assert t in before - {tid};
      hide ReadingOk;
      forall i | 0 <= i < |after[t].obs|
        ensures ReadingOk(jobs'[t], after[t].obs[i], s', born')
      {
        ReadingKept(jobs[t], before[t].obs[i], s, born, s', born', mine);
      }
    }
  }

  // ---------------------------------------------------------------- the log across a commit

  lemma WinsAcross(log: seq<Event>, e: Event, s: Store, born: set<Uuid>, s': Store, born': set<Uuid>, mine: Option<Uuid>)
    requires WinsOk(log, s, born) && AllMoved(s, born, s', born', mine)
    requires forall u :: WonBy(e, u) ==> Phase(s, born, u) == LIVE && Phase(s', born', u) == RETIRED
    ensures WinsOk(log + [e], s', born')
  {
    hide WonBy;
    forall i, u | 0 <= i < |log + [e]| && WonBy((log + [e])[i], u)
      ensures Phase(s', born', u) >= RETIRED
    {
      assert Moved(s, born, s', born', mine, u);
    }
  }

  lemma ClaimsAcross(log: seq<Event>, e: Event, s: Store, s': Store)
    requires ClaimsOk(log, s) && s' == ApplyAll(e.writes, s)
    requires forall w :: w in e.writes && w.SetProcessed? ==> (w.stage, w.attempt) !in s.Processed(w.u) && !Wiped(e, w.u)
    ensures ClaimsOk(log + [e], s')
  {
    var all := log + [e];
    forall i, u, stage, attempt | 0 <= i < |all| && Claimed(all[i], u, stage, attempt)
      ensures (stage, attempt) in s'.Processed(u) || WipedBetween(all, i, |all|, u)
    {
      ClaimAcross(log, e, s, i, u, stage, attempt);
    }
    forall i, j, u, stage, attempt | 0 <= i < j < |all| && Claimed(all[i], u, stage, attempt) && Claimed(all[j], u, stage, attempt)
      ensures WipedBetween(all, i, j, u)
    {
      assert WipedBetween(log, i, j, u);
      var k :| i < k < j && 0 <= k < |log| && Wiped(log[k], u);
      assert all[k] == log[k];
    }
  }

  lemma ClaimAcross(log: seq<Event>, e: Event, s: Store, i: int, u: Uuid, stage: int, attempt: Option<int>)
    requires ClaimsOk(log, s) && 0 <= i <= |log| && Claimed((log + [e])[i], u, stage, attempt)
    requires forall w :: w in e.writes && w.SetProcessed? ==> !Wiped(e, w.u)
    ensures (stage, attempt) in ApplyAll(e.writes, s).Processed(u) || WipedBetween(log + [e], i, |log| + 1, u)
  {
    var all := log + [e];
    hide Apply;
    if Wiped(e, u) {
      assert all[|log|] == e;
    } else {
      ProcessedKept(e.writes, s, u, stage, attempt);
      if i < |log| && WipedBetween(log, i, |log|, u) {
        var k :| i < k < |log| && 0 <= k < |log| && Wiped(log[k], u);
        assert all[k] == log[k];
      }
    }
  }

  // ---------------------------------------------------------------- commits and returns

  lemma ReadsAreCurrent(s: System, tid: Tid, s': State)
    requires SystemOk(s) && tid in s.jobs && Step(s.db, Exec(tid), s')
    ensures tid in s.db.runs && s.db.runs[tid].body == BodyOf(s.jobs[tid]) && Current(s.db.runs[tid].obs, s.db.store)
    ensures ReadingsOk(s.jobs[tid], s.db.runs[tid].obs, s.db.store, s.born) && JobOk(s.jobs[tid], s.db.store, s.born)
    ensures var a := Act(s.jobs[tid], s.db.runs[tid].obs); a.Commit? && a.writes != []
  {
    CommitReadsCurrent(s.db, tid, s');
  }

  /** What a cleanup's OK does to its challenge. */
  lemma WinningCommit(j: Job, obs: seq<Obs>, s: Store, born: set<Uuid>)
    requires StoreOk(s, born) && Current(obs, s) && JobOk(j, s, born) && WonCleanup(j, obs)
    ensures Act(j, obs).Commit? && Phase(s, born, j.u) == LIVE
    ensures var ws := Act(j, obs).writes; Phase(ApplyAll(ws, s), BornAfterAll(ws, born), j.u) == RETIRED
  {
    assert Act(j, obs) == Commit([SetFields(j.u, CLEANUP_PATCH)]);
    var w := SetFields(j.u, CLEANUP_PATCH);
    assert w in Act(j, obs).writes;
    RetiresOnce(j, obs, s, born, j.u);
  }

  lemma NextAfterCommit(j: Job, obs: seq<Obs>, next: Job, s: Store, born: set<Uuid>)
    requires StoreOk(s, born) && Current(obs, s) && JobOk(j, s, born) && ReadingsOk(j, obs, s, born)
    requires Act(j, obs).Commit? && Act(j, obs).writes != [] && Next(j, obs, Some(next))
    ensures var ws := Act(j, obs).writes; JobOk(next, ApplyAll(ws, s), BornAfterAll(ws, born))
    ensures Mine(next).Some? ==> Mine(next) == Mine(j)
    ensures IsOwner(next) ==> Floor(j) != UNBORN && next.u == j.u && (IsOwner(j) || WonCleanup(j, obs))
    ensures WonCleanup(j, obs) ==> Phase(s, born, j.u) < RETIRED
  {
    var ws := Act(j, obs).writes;
    var s', born' := ApplyAll(ws, s), BornAfterAll(ws, born);
    CommitKeeps(j, obs, s, born);
    FloorKept(j, s, born, s', born', Mine(j));
    forall i | 0 <= i < |obs|
      ensures ReadingOk(j, obs[i], s', born')
    {
      ReadingKept(j, obs[i], s, born, s', born', Mine(j));
    }
    if WonCleanup(j, obs) {
      WinningCommit(j, obs, s, born);
    }
    if j.Start? && Decide(j.party, j.stage, obs).CreateNew? {
      CreatedByStart(j, obs, s, born);
    }
    NextOk(j, obs, next, s', born');
  }

  lemma ExecKeepsJobs(s: System, tid: Tid, next: Option<Job>, s': System)
    requires SystemOk(s) && SystemStep(s, Do(Exec(tid), next), s')
    ensures JobsOk(s'.jobs, s'.db.store, s'.born, s'.minted)
  {
    ReadsAreCurrent(s, tid, s'.db);
    var j, obs := s.jobs[tid], s.db.runs[tid].obs;
    CommitKeeps(j, obs, s.db.store, s.born);
    if next.Some? {
      NextAfterCommit(j, obs, next.value, s.db.store, s.born);
    }
    hide Act, Inv, StoreOk, AllMoved, JobOk, Mine, IsOwner, WonCleanup, WinsOk, ClaimsOk, RunsOk, ReadingsOk, Current, Next;
    forall t | t in s.jobs && t != tid
      ensures JobOk(s.jobs[t], s'.db.store, s'.born)
      ensures next.Some? ==> Apart(next.value, s.jobs[t]) && Apart(s.jobs[t], next.value)
    {
      assert Apart(s.jobs[t], j) && Apart(j, s.jobs[t]);
      JobKept(s.jobs[t], s.db.store, s.born, s'.db.store, s'.born, Mine(j));
      if next.Some? {
        NextApart(j, obs, next.value, s.jobs[t], s.db.store, s.born);
      }
    }
    ReplacedKeeps(s.jobs, tid, next, s'.db.store, s'.born, s'.minted);
  }

  lemma BornAreMinted(j: Job, obs: seq<Obs>, s: Store, born: set<Uuid>, minted: set<Uuid>)
    requires StoreOk(s, born) && Current(obs, s) && JobOk(j, s, born) && born <= minted
    requires Act(j, obs).Commit? && Act(j, obs).writes != [] && (Mine(j).Some? ==> Mine(j).value in minted)
    ensures BornAfterAll(Act(j, obs).writes, born) <= minted
  {
    CommitKeeps(j, obs, s, born);
    var ws := Act(j, obs).writes;
    forall u | u in BornAfterAll(ws, born)
      ensures u in minted
    {
      assert Moved(s, born, ApplyAll(ws, s), BornAfterAll(ws, born), Mine(j), u);
    }
  }

  lemma ExecKeeps(s: System, tid: Tid, next: Option<Job>, s': System)
    requires SystemOk(s) && SystemStep(s, Do(Exec(tid), next), s')
    ensures SystemOk(s') && AllMoved(s.db.store, s.born, s'.db.store, s'.born, Mine(s.jobs[tid]))
  {
    InvStep(s.db, Exec(tid), s'.db);
    ExecKeepsJobs(s, tid, next, s');
    ReadsAreCurrent(s, tid, s'.db);
    var j, obs := s.jobs[tid], s.db.runs[tid].obs;
    var ws := Act(j, obs).writes;
    CommitKeeps(j, obs, s.db.store, s.born);
    BornAreMinted(j, obs, s.db.store, s.born, s.minted);
    var e := Event(s.db.runs[tid].body, obs, ws);
    forall u | WonBy(e, u)
      ensures Phase(s.db.store, s.born, u) == LIVE && Phase(s'.db.store, s'.born, u) == RETIRED
    {
      RetiresOnce(j, obs, s.db.store, s.born, u);
    }
    forall w | w in ws && w.SetProcessed?
      ensures (w.stage, w.attempt) !in s.db.store.Processed(w.u) && !Wiped(e, w.u)
    {
      ClaimsAreNew(j, obs, s.db.store, w);
    }
    hide Act, Inv, StoreOk, AllMoved, JobsOk, WinsOk, ClaimsOk, RunsOk, Next, ReadingsOk, Current;
    WinsAcross(s.db.log, e, s.db.store, s.born, s'.db.store, s'.born, Mine(j));
    ClaimsAcross(s.db.log, e, s.db.store, s'.db.store);
    RunsAcross(s.db.runs, s'.db.runs, s.jobs, s'.jobs, tid, s.db.store, s.born, s'.db.store, s'.born, Mine(j));
  }

  lemma NothingCommitted(j: Job, obs: seq<Obs>)
    requires Act(j, obs) == Commit([])
    ensures !WonCleanup(j, obs) && !(j.Start? && Decide(j.party, j.stage, obs).CreateNew?)
  {
  }

  lemma ReturnKeeps(s: System, tid: Tid, next: Option<Job>, s': System)
    requires SystemOk(s) && SystemStep(s, Do(Return(tid), next), s')
    ensures SystemOk(s')
  {
    InvStep(s.db, Return(tid), s'.db);
    var j, obs := s.jobs[tid], s.db.runs[tid].obs;
    NothingCommitted(j, obs);
    if next.Some? {
      NextOk(j, obs, next.value, s.db.store, s.born);
    }
    hide Act, Inv, StoreOk, JobOk, Mine, IsOwner, WonCleanup, WinsOk, ClaimsOk, ReadingsOk, Next;
    forall t | t in s.jobs && t != tid
      ensures next.Some? ==> Apart(next.value, s.jobs[t]) && Apart(s.jobs[t], next.value)
    {
      if next.Some? {
        assert Apart(s.jobs[t], j) && Apart(j, s.jobs[t]);
        NextApart(j, obs, next.value, s.jobs[t], s.db.store, s.born);
      }
    }
    ReplacedKeeps(s.jobs, tid, next, s'.db.store, s'.born, s'.minted);
  }

  // ---------------------------------------------------------------- every reachable state

  lemma SystemOkStep(s: System, e: Happening, s': System)
    requires SystemOk(s) && SystemStep(s, e, s')
    ensures SystemOk(s')
  {
    hide SystemOk;
    match e
    case Arrive(tid, job) => ArriveKeeps(s, tid, job, s');
    case Do(l, next) =>
      match l
      case Exec(tid) => ExecKeeps(s, tid, next, s');
      case Return(tid) => ReturnKeeps(s, tid, next, s');
      case _ => QuietStepKeeps(s, l, s');
  }

  lemma {:induction false} SystemOkHolds(states: seq<System>, events: seq<Happening>, n: nat)
    requires Behavior(states, events) && n < |states|
    ensures SystemOk(states[n])
  {
    if n > 0 {
      SystemOkHolds(states, events, n - 1);
      SystemOkStep(states[n - 1], events[n - 1], states[n]);
    }
  }

  // ---------------------------------------------------------------- what holds over every run

  lemma StepMoves(s: System, e: Happening, s': System, u: Uuid)
    requires SystemOk(s) && SystemStep(s, e, s')
    ensures Edge(s.PhaseOf(u), s'.PhaseOf(u))
    ensures INITIAL <= s.PhaseOf(u) && s'.PhaseOf(u) <= RETIRED ==> PositionLe(s.PositionAt(u), s'.PositionAt(u))
  {
    if e.Do? && e.step.Exec? {
      ExecKeeps(s, e.step.tid, e.next, s');
      hide SystemOk, SystemStep;
      assert Moved(s.db.store, s.born, s'.db.store, s'.born, Mine(s.jobs[e.step.tid]), u);
    }
  }

  /** A challenge's state only moves INITIALIZING, ACTIVE, CLEANUP, deleted; creation may end in deletion at once. */
  lemma LifeMovesForward(states: seq<System>, events: seq<Happening>, n: nat, u: Uuid)
    requires Behavior(states, events) && n < |events|
    ensures Edge(states[n].PhaseOf(u), states[n + 1].PhaseOf(u))
  {
    SystemOkHolds(states, events, n);
    StepMoves(states[n], events[n], states[n + 1], u);
  }

  /** Over any run, a challenge never goes back to an earlier phase, and while it lives its stage and attempt never fall. */
  lemma {:induction false} NeverGoesBack(states: seq<System>, events: seq<Happening>, m: nat, n: nat, u: Uuid)
    requires Behavior(states, events) && m <= n < |states|
    ensures states[m].PhaseOf(u) <= states[n].PhaseOf(u)
    ensures INITIAL <= states[m].PhaseOf(u) && states[n].PhaseOf(u) <= RETIRED ==>
      PositionLe(states[m].PositionAt(u), states[n].PositionAt(u))
    decreases n
  {
    hide Phase, SystemOk, SystemStep;
    if m < n {
      NeverGoesBack(states, events, m, n - 1, u);
      SystemOkHolds(states, events, n - 1);
      StepMoves(states[n - 1], events[n - 1], states[n], u);
    }
  }

  /** At most one cleanup of a challenge ever gets its OK, and at most one job at a time is finishing it. */
  lemma CleanupWonOnce(states: seq<System>, events: seq<Happening>, n: nat, u: Uuid)
    requires Behavior(states, events) && n < |states|
    ensures var log := states[n].db.log;
      forall i, j :: 0 <= i < |log| && 0 <= j < |log| && WonBy(log[i], u) && WonBy(log[j], u) ==> i == j
    ensures var jobs := states[n].jobs;
      forall a, b :: a in jobs && b in jobs && IsOwner(jobs[a]) && IsOwner(jobs[b]) && jobs[a].u == u == jobs[b].u ==> a == b
  {
    SystemOkHolds(states, events, n);
    hide WonBy, StoreOk, Inv, ClaimsOk, RunsOk;
    var jobs := states[n].jobs;
    forall a, b | a in jobs && b in jobs && IsOwner(jobs[a]) && IsOwner(jobs[b]) && jobs[a].u == u == jobs[b].u
      ensures a == b
    {
      assert a != b ==> Apart(jobs[a], jobs[b]);
    }
  }

  /** No stage attempt passes the processed check twice unless its challenge's data is deleted in between. */
  lemma ClaimedOnce(
      states: seq<System>, events: seq<Happening>, n: nat, i: nat, j: nat, u: Uuid, stage: int, attempt: Option<int>)
    requires Behavior(states, events) && n < |states| && i < j < |states[n].db.log|
    requires Claimed(states[n].db.log[i], u, stage, attempt) && Claimed(states[n].db.log[j], u, stage, attempt)
    ensures exists k :: i < k < j && Wiped(states[n].db.log[k], u)
  {
    SystemOkHolds(states, events, n);
    hide Wiped, Claimed;
    assert WipedBetween(states[n].db.log, i, j, u);
  }

  // ---------------------------------------------------------------- where merges and owners come from

  /** A job becomes the owner of a challenge only by a commit of its own that sets CLEANUP. */
  lemma OwnersWon(j: Job, obs: seq<Obs>, next: Job)
    requires Next(j, obs, Some(next)) && IsOwner(next) && !IsOwner(j)
    ensures WonCleanup(j, obs) && next == OwnerLoad(j.u) && Act(j, obs) == Commit([SetFields(j.u, CLEANUP_PATCH)])
  {
  }

  /** Only a job whose own commit claimed the stage goes on to merge it. */
  lemma MergesAreClaimed(j: Job, obs: seq<Obs>, next: Job)
    requires Next(j, obs, Some(next)) && next.Merge? && Act(j, obs).Commit?
    ensures j.Claim? && next.u == j.u && SetProcessed(j.u, j.stage, j.attempt) in Act(j, obs).writes
  {
    assert j.Claim?;
    assert Act(j, obs).writes[0] == SetProcessed(j.u, j.stage, j.attempt);
  }

  /** A merge under way was claimed, and the owner of a challenge's data won its cleanup. */
  ghost predicate HasOrigin(j: Job, log: seq<Event>) {
    (j.Merge? ==> exists i :: 0 <= i < |log| && Claimed(log[i], j.u, j.stage, j.attempt)) &&
    (IsOwner(j) ==> exists i :: 0 <= i < |log| && WonBy(log[i], j.u))
  }

  ghost predicate OriginsOk(jobs: map<Tid, Job>, log: seq<Event>) {
    forall tid :: tid in jobs ==> HasOrigin(jobs[tid], log)
  }

  lemma OriginKept(j: Job, log: seq<Event>, e: Event)
    requires HasOrigin(j, log)
    ensures HasOrigin(j, log + [e])
  {
    hide Claimed, WonBy;
    var all := log + [e];
    if j.Merge? {
      var i :| 0 <= i < |log| && Claimed(log[i], j.u, j.stage, j.attempt);
      assert all[i] == log[i];
    }
    if IsOwner(j) {
      var i :| 0 <= i < |log| && WonBy(log[i], j.u);
      assert all[i] == log[i];
    }
  }

  /** A job that follows a commit has its origin in that commit, or inherits it. */
  lemma OriginOfNext(j: Job, obs: seq<Obs>, next: Job, log: seq<Event>, e: Event)
    requires Next(j, obs, Some(next)) && Act(j, obs).Commit? && e.writes == Act(j, obs).writes && HasOrigin(j, log)
    ensures HasOrigin(next, log + [e])
  {
    var all := log + [e];
    assert all[|log|] == e;
    if next.Merge? {
      MergesAreClaimed(j, obs, next);
    }
    if IsOwner(next) && !IsOwner(j) {
      OwnersWon(j, obs, next);
      assert e.writes[0] == SetFields(j.u, CLEANUP_PATCH);
    } else if IsOwner(next) {
      OriginKept(j, log, e);
      OwnerStays(j, obs, next);
    }
  }

  lemma OwnerStays(j: Job, obs: seq<Obs>, next: Job)
    requires Next(j, obs, Some(next)) && IsOwner(j) && IsOwner(next)
    ensures next.u == j.u
  {
  }

  /** A job that follows a reading inherits its origin. */
  lemma OriginAfterReading(j: Job, obs: seq<Obs>, next: Job, log: seq<Event>)
    requires Next(j, obs, Some(next)) && Act(j, obs) == Commit([]) && HasOrigin(j, log)
    ensures HasOrigin(next, log)
  {
    if next.Merge? {
      MergesAreClaimed(j, obs, next);
    }
    if IsOwner(next) && !IsOwner(j) {
      OwnersWon(j, obs, next);
    } else if IsOwner(next) {
      OwnerStays(j, obs, next);
    }
  }

  lemma OriginsStep(s: System, e: Happening, s': System)
    requires SystemOk(s) && OriginsOk(s.jobs, s.db.log) && SystemStep(s, e, s')
    ensures OriginsOk(s'.jobs, s'.db.log)
  {
    hide HasOrigin, StoreOk, Inv, JobsOk, WinsOk, ClaimsOk, Next, Act;
    if e.Arrive? {
      ArrivesWithout(e.job, s.db.log);
    } else if e.step.Exec? {
      var r := s.db.runs[e.step.tid];
      var event := Event(r.body, r.obs, r.body(r.obs).writes);
      forall tid | tid in s.jobs
        ensures HasOrigin(s.jobs[tid], s'.db.log)
      {
        OriginKept(s.jobs[tid], s.db.log, event);
      }
      if e.next.Some? {
        OriginOfNext(s.jobs[e.step.tid], r.obs, e.next.value, s.db.log, event);
      }
    } else if e.step.Return? {
      if e.next.Some? {
        OriginAfterReading(s.jobs[e.step.tid], s.db.runs[e.step.tid].obs, e.next.value, s.db.log);
      }
    }
  }

  lemma ArrivesWithout(j: Job, log: seq<Event>)
    requires Arrives(j)
    ensures HasOrigin(j, log)
  {
  }

  /** In every reachable state, each merge under way was claimed and each owner won its challenge's cleanup. */
  lemma {:induction false} OriginsHold(states: seq<System>, events: seq<Happening>, n: nat)
    requires Behavior(states, events) && n < |states|
    ensures OriginsOk(states[n].jobs, states[n].db.log)
  {
    hide SystemOk, SystemStep, HasOrigin;
    if n > 0 {
      OriginsHold(states, events, n - 1);
      SystemOkHolds(states, events, n - 1);
      OriginsStep(states[n - 1], events[n - 1], states[n]);
    }
  }

  lemma LogStep(s: System, e: Happening, s': System)
    requires SystemStep(s, e, s')
    ensures s.db.log <= s'.db.log
  {
  }

  lemma {:induction false} LogGrows(states: seq<System>, events: seq<Happening>, m: nat, n: nat)
    requires Behavior(states, events) && m <= n < |states|
    ensures states[m].db.log <= states[n].db.log
    decreases n
  {
    hide SystemStep;
    if m < n {
      LogGrows(states, events, m, n - 1);
      LogStep(states[n - 1], events[n - 1], states[n]);
    }
  }

  /** The step by which a job goes on to merge a stage attempt. */
  predicate ReachesMerge(e: Happening, u: Uuid, stage: int, attempt: Option<int>) {
    e.Do? && e.next.Some? && e.next.value.Merge? && e.next.value.u == u && e.next.value.stage == stage &&
    e.next.value.attempt == attempt
  }

  lemma MergeStepClaims(s: System, e: Happening, s': System, u: Uuid, stage: int, attempt: Option<int>)
    requires SystemOk(s) && SystemStep(s, e, s') && ReachesMerge(e, u, stage, attempt) && (e.step.Exec? || e.step.Return?)
    ensures |s'.db.log| == |s.db.log| + 1 && Claimed(s'.db.log[|s.db.log|], u, stage, attempt)
  {
    var j, obs := s.jobs[e.step.tid], s.db.runs[e.step.tid].obs;
    assert s.db.runs[e.step.tid].body == BodyOf(j);
    hide SystemOk, Inv;
    MergesAreClaimed(j, obs, e.next.value);
  }

  /** A stage attempt reaches the merge twice in a run only if its challenge's data was deleted in between. */
  lemma MergedOnce(
      states: seq<System>, events: seq<Happening>, m: nat, n: nat, u: Uuid, stage: int, attempt: Option<int>)
    requires Behavior(states, events) && m < n < |events|
    requires ReachesMerge(events[m], u, stage, attempt) && ReachesMerge(events[n], u, stage, attempt)
    ensures exists k :: |states[m].db.log| < k < |states[n].db.log| && Wiped(states[n].db.log[k], u)
  {
    SystemOkHolds(states, events, m);
    SystemOkHolds(states, events, n);
    hide SystemOk, Claimed, Wiped;
    OnlyJobsGoOn(states[m], events[m], states[m + 1]);
    OnlyJobsGoOn(states[n], events[n], states[n + 1]);
    MergeStepClaims(states[m], events[m], states[m + 1], u, stage, attempt);
    MergeStepClaims(states[n], events[n], states[n + 1], u, stage, attempt);
    LogGrows(states, events, m + 1, n);
    LogGrows(states, events, n, n + 1);
    hide SystemStep;
    var i, j, log := |states[m].db.log|, |states[n].db.log|, states[n + 1].db.log;
    assert log[i] == states[m + 1].db.log[i];
    ClaimedOnce(states, events, n + 1, i, j, u, stage, attempt);
  }

  lemma OnlyJobsGoOn(s: System, e: Happening, s': System)
    requires SystemStep(s, e, s') && e.Do? && e.next.Some?
    ensures e.step.Exec? || e.step.Return?
  {
  }

  /** Every challenge whose timeout state is set is among the timeouts; one still being created has no client or timeout. */
  lemma TimeoutsAreEntered(states: seq<System>, events: seq<Happening>, n: nat, u: Uuid)
    requires Behavior(states, events) && n < |states|
    ensures var s := states[n].db.store; TimeoutStateOf(s.Hash(u)) != NO_TIMEOUT ==> u in s.timeouts
    ensures var s := states[n].db.store; states[n].PhaseOf(u) == INITIAL ==> s.Clients(u) == map[] && u !in s.timeouts
  {
    SystemOkHolds(states, events, n);
    assert ChallengeOk(states[n].db.store, states[n].born, u);
  }

  /** A client's pointer names a challenge that lists the client, or one whose state is gone. */
  lemma PointersAreListed(states: seq<System>, events: seq<Happening>, n: nat, c: ClientId)
    requires Behavior(states, events) && n < |states|
    ensures var s := states[n].db.store;
      s.Pointer(c).Some? ==> var u := s.Pointer(c).value; c in s.Clients(u) || s.Hash(u).state.None?
  {
    SystemOkHolds(states, events, n);
    assert PointerOk(states[n].db.store, states[n].born, c);
  }

  /** A deleted challenge's hash may come back, but never with a state, a stage, an attempt or a party. */
  lemma DeletedStaysDeleted(states: seq<System>, events: seq<Happening>, m: nat, n: nat, u: Uuid)
    requires Behavior(states, events) && m <= n < |states| && states[m].PhaseOf(u) == GONE
    ensures var h := states[n].db.store.Hash(u); h.state.None? && h.stage.None? && h.attempt.None? && h.party.None?
  {
    NeverGoesBack(states, events, m, n, u);
    SystemOkHolds(states, events, n);
    assert ChallengeOk(states[n].db.store, states[n].born, u);
  }

  /** The store is what the committed jobs, run one at a time in commit order, make of the first one. */
  lemma {:induction false} ManagerIsSerial(states: seq<System>, events: seq<Happening>, n: nat)
    requires Behavior(states, events) && n < |states|
    ensures Serialized(states[0].db.store, states[n].db)
  {
    if n > 0 {
      ManagerIsSerial(states, events, n - 1);
      SystemOkHolds(states, events, n - 1);
      if events[n - 1].Do? {
        SerialStep(states[0].db.store, states[n - 1].db, events[n - 1].step, states[n].db);
      }
    }
  }
}
