/** What each of the manager's jobs may rely on, and that its commit keeps the store good. */
module ManagerCommits {
  import opened Options
  import opened RedisStore
  import opened ChallengeStage
  import opened Transactions
  import opened ManagerJobs
  import opened LifecycleStore

  // ---------------------------------------------------------------- what a job relies on

  /** The job owns the challenge's data: its chain of jobs won the cleanup and has not deleted the data yet. */
  predicate IsOwner(j: Job) {
    j.OwnerLoad? || j.OwnerDelete? || ((j.Load? || j.ClearStageEnd? || j.Claim? || j.Merge?) && j.andThen.ThenDelete?)
  }

  /** The challenge a job is creating. */
  function Mine(j: Job): Option<Uuid> {
    match j
    case Start(_, _, _, created) => Some(created)
    case Activate(u, _, _, _) => Some(u)
    case AbortCreate(u, _) => Some(u)
    case _ => None
  }

  /** The phase that the job's challenge is known to have reached. */
  function Floor(j: Job): int {
    match j
    case Start(_, _, _, _) => UNBORN
    case Activate(_, _, _, _) => UNBORN
    case AbortCreate(_, _) => UNBORN
    case Join(_, _, _) => UNBORN
    case CheckAdd(_, _) => UNBORN
    case Add(_, _) => UNBORN
    case CheckUpdate(_, _, _, _) => UNBORN
    case Finish(_, _, _, _) => UNBORN
    case OnEvent(_, _, _) => UNBORN
    case Tick => UNBORN
    case Delete(_, _) => RETIRED
    case _ => if IsOwner(j) then RETIRED else LIVE
  }

  ghost predicate FloorOk(j: Job, s: Store, born: set<Uuid>) {
    Floor(j) != UNBORN ==> Phase(s, born, j.u) >= Floor(j)
  }

  ghost predicate JobOk(j: Job, s: Store, born: set<Uuid>) {
    FloorOk(j, s, born) &&
    match j
    case Start(_, _, _, created) => created !in born
    case Activate(u, _, _, stage) => Phase(s, born, u) == INITIAL && s.Hash(u).stage == Some(stage)
    case AbortCreate(u, _) => Phase(s, born, u) == INITIAL
    case _ => true
  }

  lemma JobKept(j: Job, s: Store, born: set<Uuid>, s': Store, born': set<Uuid>, mine: Option<Uuid>)
    requires JobOk(j, s, born) && AllMoved(s, born, s', born', mine) && (Mine(j).Some? ==> Mine(j) != mine)
    ensures JobOk(j, s', born')
  {
    if Mine(j).Some? {
      assert Moved(s, born, s', born', mine, Mine(j).value);
    }
    if Floor(j) != UNBORN {
      assert Moved(s, born, s', born', mine, j.u);
    }
  }

  lemma FloorKept(j: Job, s: Store, born: set<Uuid>, s': Store, born': set<Uuid>, mine: Option<Uuid>)
    requires FloorOk(j, s, born) && AllMoved(s, born, s', born', mine)
    ensures FloorOk(j, s', born')
  {
    if Floor(j) != UNBORN {
      assert Moved(s, born, s', born', mine, j.u);
    }
  }

  // ---------------------------------------------------------------- what an old reading still tells

  /** Facts a reading established and that stay true, even once the reading is out of date. */
  ghost predicate ReadingOk(j: Job, o: Obs, s: Store, born: set<Uuid>) {
    (o.val.ValPointer? && o.val.pointer.Some? ==> Phase(s, born, o.val.pointer.value) >= LIVE) &&
    (o.val.ValTimeouts? ==> forall u :: u in o.val.timeouts ==> Phase(s, born, u) >= LIVE) &&
    (Floor(j) != UNBORN && o.key == KeyHash(j.u) && o.val.ValHash? ==>
       (o.val.hash.state.None? ==> Phase(s, born, j.u) == GONE) &&
       (o.val.hash.state == Some(CLEANUP) ==> Phase(s, born, j.u) >= RETIRED))
  }

  ghost predicate ReadingsOk(j: Job, obs: seq<Obs>, s: Store, born: set<Uuid>) {
    forall i :: 0 <= i < |obs| ==> ReadingOk(j, obs[i], s, born)
  }

  lemma FreshReadingOk(j: Job, k: Key, s: Store, born: set<Uuid>)
    requires StoreOk(s, born) && FloorOk(j, s, born)
    ensures ReadingOk(j, Obs(k, At(s, k)), s, born)
  {
    match k
    case KeyPointer(c) =>
      assert PointerOk(s, born, c);
    case KeyTimeouts =>
      forall u | u in s.timeouts
        ensures Phase(s, born, u) >= LIVE
      {
        assert ChallengeOk(s, born, u);
      }
    case _ =>
  }

  lemma ReadingKept(j: Job, o: Obs, s: Store, born: set<Uuid>, s': Store, born': set<Uuid>, mine: Option<Uuid>)
    requires ReadingOk(j, o, s, born) && AllMoved(s, born, s', born', mine)
    ensures ReadingOk(j, o, s', born')
  {
    forall u
      ensures Phase(s, born, u) <= Phase(s', born', u) <= GONE
    {
      assert Moved(s, born, s', born', mine, u);
    }
  }

  lemma {:induction false} SeenIsReading(obs: seq<Obs>, k: Key)
    requires Seen(obs, k).Some?
    ensures exists i :: 0 <= i < |obs| && obs[i] == Obs(k, Seen(obs, k).value)
  {
    if obs[|obs| - 1].key == k {
      assert obs[|obs| - 1] == Obs(k, Seen(obs, k).value);
    } else {
      SeenIsReading(obs[..|obs| - 1], k);
      var i :| 0 <= i < |obs| - 1 && obs[..|obs| - 1][i] == Obs(k, Seen(obs, k).value);
      assert obs[i] == Obs(k, Seen(obs, k).value);
    }
  }

  lemma SeenReadingOk(j: Job, obs: seq<Obs>, k: Key, s: Store, born: set<Uuid>)
    requires ReadingsOk(j, obs, s, born) && Seen(obs, k).Some?
    ensures ReadingOk(j, Obs(k, Seen(obs, k).value), s, born)
  {
    SeenIsReading(obs, k);
  }

  // ---------------------------------------------------------------- what a current reading tells

  ghost predicate Current(obs: seq<Obs>, s: Store) {
    forall i :: 0 <= i < |obs| ==> obs[i].val == At(s, obs[i].key)
  }

  lemma SeenCurrent(obs: seq<Obs>, k: Key, s: Store)
    requires Current(obs, s) && Seen(obs, k).Some?
    ensures Seen(obs, k).value == At(s, k)
  {
    SeenIsReading(obs, k);
  }

  lemma ChallengeSeen(obs: seq<Obs>, u: Uuid, s: Store)
    requires Current(obs, s)
    ensures HashSeen(obs, u).Some? ==> HashSeen(obs, u).value == s.Hash(u)
    ensures ClientsSeen(obs, u).Some? ==> ClientsSeen(obs, u).value == s.Clients(u)
  {
    if Seen(obs, KeyHash(u)).Some? {
      SeenCurrent(obs, KeyHash(u), s);
    }
    if Seen(obs, KeyClients(u)).Some? {
      SeenCurrent(obs, KeyClients(u), s);
    }
  }

  lemma PointerSeenNow(obs: seq<Obs>, c: ClientId, s: Store)
    requires Current(obs, s)
    ensures PointerSeen(obs, c).Some? ==> PointerSeen(obs, c).value == s.Pointer(c)
  {
    if Seen(obs, KeyPointer(c)).Some? {
      SeenCurrent(obs, KeyPointer(c), s);
    }
  }

  lemma LiveBy(s: Store, born: set<Uuid>, u: Uuid)
    requires StoreOk(s, born)
    ensures s.Hash(u).state == Some(ACTIVE) ==> Phase(s, born, u) == LIVE
    ensures s.Hash(u).state == Some(INITIALIZING) ==> Phase(s, born, u) == INITIAL && s.Hash(u).timeoutState != Some(CLEANUP_DUE)
  {
    assert ChallengeOk(s, born, u);
  }

  // ---------------------------------------------------------------- the commits, job by job

  lemma QuietIsProper(ws: seq<Write>, s: Store, born: set<Uuid>, mine: Option<Uuid>)
    requires ws != [] && AllQuiet(ws, s, born)
    ensures Proper(ws, s, born, mine)
  {
  }

  /** A party's last challenge is joined at once only when it was read as active, later only as initializing. */
  lemma DecidedBy(party: Party, stage: int, obs: seq<Obs>)
    ensures match Decide(party, stage, obs)
      case JoinLater(last) => HashSeen(obs, last).Some? && HashSeen(obs, last).value.state == Some(INITIALIZING)
      case JoinNow(last) => HashSeen(obs, last).Some? && HashSeen(obs, last).value.state == Some(ACTIVE)
      case _ => true
  {
    var decision := Decide(party, stage, obs);
    if decision.JoinNow? {
      match HashSeen(obs, decision.last).value.state.value
      case INITIALIZING =>
      case ACTIVE =>
      case CLEANUP =>
    }
  }

  lemma StartCommits(joiner: Joiner, party: Party, stage: int, created: Uuid, obs: seq<Obs>, s: Store, born: set<Uuid>)
    requires StoreOk(s, born) && Current(obs, s) && created !in born
    requires ActStart(joiner, party, stage, created, obs).Commit?
    ensures var ws := ActStart(joiner, party, stage, created, obs).writes;
      if Decide(party, stage, obs).CreateNew? then
        Proper(ws, s, born, Some(created)) && ws[|ws| - 1] == SetFields(created, BirthPatch(stage))
      else AllQuiet(ws, s, born)
  {
    DecidedBy(party, stage, obs);
    hide Decide;
    match Decide(party, stage, obs)
    case Undecided(_) =>
    case CreateNew(_) =>
    case JoinLater(last) =>
      ChallengeSeen(obs, last, s);
      LiveBy(s, born, last);
    case JoinNow(last) =>
      ChallengeSeen(obs, last, s);
      LiveBy(s, born, last);
  }

  lemma UpdateCommits(
      u: Uuid, c: ClientId, update: Update, retriable: int -> bool, obs: seq<Obs>, s: Store, born: set<Uuid>)
    requires StoreOk(s, born) && Current(obs, s) && Phase(s, born, u) >= LIVE
    requires ActUpdate(u, c, update, retriable, obs).Commit? && ActUpdate(u, c, update, retriable, obs).writes != []
    ensures Proper(ActUpdate(u, c, update, retriable, obs).writes, s, born, None)
  {
    ChallengeSeen(obs, u, s);
    assert ChallengeOk(s, born, u);
    var h, clients := s.Hash(u), ClientsSeen(obs, u);
    var active := ClearIfDue(u, h) + [RefreshSession];
    assert AllQuiet(active, s, born);
    if !update.entryMode && update.stage.Some? && update.stage.value.stage >= h.stage.GetOr(UNKNOWN_STAGE) {
      StageWritesProper(u, c, StageOutcome(u, c, update.stage.value, retriable, h, clients.value), active, update.stage.value,
                        retriable, clients.value, s, born);
    } else {
      QuietIsProper(active, s, born, None);
    }
  }

  lemma PatchShape(retriable: int -> bool, p: Position, stage: int)
    ensures var q := StartPatch(retriable, p, stage);
      q == NO_CHANGE.(stage := q.stage, attempt := q.attempt) && !q.stage.Clear?
  {
  }

  lemma StageWritesProper(
      u: Uuid, c: ClientId, o: Outcome, before: seq<Write>, update: StageUpdate, retriable: int -> bool,
      clients: map<ClientId, Client>, s: Store, born: set<Uuid>)
    requires LIVE <= Phase(s, born, u) <= RETIRED && s.Hash(u).stage.Some? && before != [] && AllQuiet(before, s, born)
    requires o == StageOutcome(u, c, update, retriable, s.Hash(u), clients)
    ensures Proper(before + StageWrites(u, c, o), s, born, None)
  {
    var ws := before + StageWrites(u, c, o);
    if o.Applied? && o.patch != NO_CHANGE {
      UpdateAdvances(retriable, s.Hash(u), TimeoutStateOf(s.Hash(u)), clients, c, update);
      PatchShape(retriable, PositionOf(s.Hash(u)), update.stage);
      assert ws[|ws| - 1] == SetFields(u, o.patch);
      assert Advances(u, o.patch, s, born);
      hide UpdateStage, StartPatch, Advances;
    } else {
      hide UpdateStage, StartPatch;
      assert AllQuiet(ws, s, born);
    }
  }

  lemma CleanupCommits(u: Uuid, due: Option<Timeout>, now: int, obs: seq<Obs>, s: Store, born: set<Uuid>)
    requires StoreOk(s, born) && Current(obs, s) && Phase(s, born, u) >= LIVE
    requires ActCleanup(u, due, now, obs).Commit? && ActCleanup(u, due, now, obs).writes != []
    ensures Proper(ActCleanup(u, due, now, obs).writes, s, born, None)
  {
    ChallengeSeen(obs, u, s);
  }

  /** Adding, finishing and the deferred join: the state they read lets them write. */
  lemma GuardedCommits(j: Job, obs: seq<Obs>, s: Store, born: set<Uuid>)
    requires StoreOk(s, born) && Current(obs, s) && (j.Join? || j.Add? || j.Finish?)
    requires Act(j, obs).Commit? && Act(j, obs).writes != []
    ensures AllQuiet(Act(j, obs).writes, s, born)
  {
    ChallengeSeen(obs, j.u, s);
    LiveBy(s, born, j.u);
  }

  /** Everything else about a challenge that is at least LIVE. */
  lemma LiveCommits(j: Job, obs: seq<Obs>, s: Store, born: set<Uuid>)
    requires Floor(j) != UNBORN && FloorOk(j, s, born) && !j.ApplyUpdate? && !j.Cleanup? && !Deletes(j)
    requires Act(j, obs).Commit?
    ensures AllQuiet(Act(j, obs).writes, s, born)
  {
  }

  lemma PlainReads(j: Job, obs: seq<Obs>)
    requires j.CheckAdd? || j.CheckUpdate? || j.OnEvent? || j.Tick?
    ensures Act(j, obs).Commit? ==> Act(j, obs).writes == []
  {
  }

  /** A deletion is the whole commit, of a challenge that is retired or still its creator's. */
  lemma DeletionCommits(j: Job, obs: seq<Obs>, s: Store, born: set<Uuid>)
    requires JobOk(j, s, born) && Deletes(j)
    ensures Act(j, obs).Commit? && Proper(Act(j, obs).writes, s, born, Mine(j))
  {
  }

  lemma StartIsProper(j: Job, obs: seq<Obs>, s: Store, born: set<Uuid>)
    requires StoreOk(s, born) && Current(obs, s) && JobOk(j, s, born) && j.Start?
    requires Act(j, obs).Commit? && Act(j, obs).writes != []
    ensures Proper(Act(j, obs).writes, s, born, Mine(j))
  {
    hide StoreOk, Quiet, Turn, Decide;
    StartCommits(j.joiner, j.party, j.stage, j.created, obs, s, born);
    if !Decide(j.party, j.stage, obs).CreateNew? {
      hide ActStart;
      QuietIsProper(Act(j, obs).writes, s, born, Mine(j));
    }
  }

  /** Every commit but an activation is proper. */
  lemma CommitIsProper(j: Job, obs: seq<Obs>, s: Store, born: set<Uuid>)
    requires StoreOk(s, born) && Current(obs, s) && JobOk(j, s, born) && !j.Activate?
    requires Act(j, obs).Commit? && Act(j, obs).writes != []
    ensures Proper(Act(j, obs).writes, s, born, Mine(j))
  {
    hide StoreOk, Current, Proper, AllQuiet, ActStart, ActUpdate, ActJoin, ActAdd, ActFinish, ActCleanup, ActSetActive,
      ActSetInactive, ActRemove, ActClaim, ActCheckActive, ActLoad, ActOwnerLoad;
    if j.Start? {
      StartIsProper(j, obs, s, born);
    } else if j.ApplyUpdate? {
      UpdateCommits(j.u, j.c, j.update, j.retriable, obs, s, born);
    } else if j.Cleanup? {
      CleanupCommits(j.u, j.due, j.now, obs, s, born);
    } else if Deletes(j) {
      DeletionCommits(j, obs, s, born);
    } else {
      if j.Join? || j.Add? || j.Finish? {
        GuardedCommits(j, obs, s, born);
      } else if Floor(j) != UNBORN {
        LiveCommits(j, obs, s, born);
      } else {
        PlainReads(j, obs);
      }
      hide Act;
      QuietIsProper(Act(j, obs).writes, s, born, Mine(j));
    }
  }

  lemma CommitKeeps(j: Job, obs: seq<Obs>, s: Store, born: set<Uuid>)
    requires StoreOk(s, born) && Current(obs, s) && JobOk(j, s, born)
    requires Act(j, obs).Commit? && Act(j, obs).writes != []
    ensures var ws := Act(j, obs).writes;
      StoreOk(ApplyAll(ws, s), BornAfterAll(ws, born)) &&
      AllMoved(s, born, ApplyAll(ws, s), BornAfterAll(ws, born), Mine(j))
  {
    if j.Activate? {
      var client := Joined(ClientsSeen(obs, j.u).value, j.joiner, j.stage, None);
      ActivationKeeps(j.u, j.stage, j.party, j.joiner.c, client, s, born);
    } else {
      CommitIsProper(j, obs, s, born);
      ProperKeeps(Act(j, obs).writes, s, born, Mine(j));
    }
  }

  // ---------------------------------------------------------------- marks in a commit

  predicate WipesIn(ws: seq<Write>, u: Uuid) {
    exists w :: w in ws && w.DeleteData? && w.u == u
  }

  predicate RetiresIn(ws: seq<Write>, u: Uuid) {
    exists w :: w in ws && w.SetFields? && w.u == u && w.patch.state == Put(CLEANUP)
  }

  /** Neither claims a stage nor deletes a challenge's data. */
  predicate Ordinary(ws: seq<Write>) {
    forall i :: 0 <= i < |ws| ==> !ws[i].SetProcessed? && !ws[i].DeleteData?
  }

  predicate Deletes(j: Job) {
    j.AbortCreate? || j.Delete? || j.OwnerDelete?
  }

  lemma JoinsAreOrdinary(j: Job, obs: seq<Obs>)
    requires Act(j, obs).Commit? && (j.Start? || j.Activate? || j.Join? || j.CheckAdd? || j.Add?)
    ensures Ordinary(Act(j, obs).writes)
  {
    hide Decide;
  }

  lemma StageWritesAreOrdinary(u: Uuid, c: ClientId, o: Outcome)
    ensures Ordinary(StageWrites(u, c, o))
  {
  }

  lemma ApplyUpdateIsOrdinary(u: Uuid, c: ClientId, update: Update, retriable: int -> bool, obs: seq<Obs>)
    requires ActUpdate(u, c, update, retriable, obs).Commit?
    ensures Ordinary(ActUpdate(u, c, update, retriable, obs).writes)
  {
    hide StageOutcome, StageWrites;
    var hash, clients := HashSeen(obs, u), ClientsSeen(obs, u);
    if hash.Some? && clients.Some? && update.stage.Some? {
      StageWritesAreOrdinary(u, c, StageOutcome(u, c, update.stage.value, retriable, hash.value, clients.value));
    }
  }

  lemma UpdatesAreOrdinary(j: Job, obs: seq<Obs>)
    requires Act(j, obs).Commit? && (j.CheckUpdate? || j.ApplyUpdate? || j.MarkProcessing? || j.Finish? || j.OnEvent?)
    ensures Ordinary(Act(j, obs).writes)
  {
    if j.ApplyUpdate? {
      ApplyUpdateIsOrdinary(j.u, j.c, j.update, j.retriable, obs);
      hide ActUpdate;
    }
  }

  lemma OthersAreOrdinary(j: Job, obs: seq<Obs>)
    requires Act(j, obs).Commit? && !j.Claim? && !Deletes(j)
    requires !(j.Start? || j.Activate? || j.Join? || j.CheckAdd? || j.Add?)
    requires !(j.CheckUpdate? || j.ApplyUpdate? || j.MarkProcessing? || j.Finish? || j.OnEvent?)
    ensures Ordinary(Act(j, obs).writes)
  {
    hide CleanupOutcome;
  }

  lemma MostAreOrdinary(j: Job, obs: seq<Obs>)
    requires Act(j, obs).Commit? && !j.Claim? && !Deletes(j)
    ensures Ordinary(Act(j, obs).writes)
  {
    hide Act, Ordinary;
    if j.Start? || j.Activate? || j.Join? || j.CheckAdd? || j.Add? {
      JoinsAreOrdinary(j, obs);
    } else if j.CheckUpdate? || j.ApplyUpdate? || j.MarkProcessing? || j.Finish? || j.OnEvent? {
      UpdatesAreOrdinary(j, obs);
    } else {
      OthersAreOrdinary(j, obs);
    }
  }

  /** A stage is claimed only while it is not among the processed ones, in a commit that deletes nothing. */
  lemma ClaimsAreNew(j: Job, obs: seq<Obs>, s: Store, w: Write)
    requires Current(obs, s) && Act(j, obs).Commit? && w in Act(j, obs).writes && w.SetProcessed?
    ensures (w.stage, w.attempt) !in s.Processed(w.u) && !WipesIn(Act(j, obs).writes, w.u)
  {
    if j.Claim? {
      if Seen(obs, KeyProcessed(j.u)).Some? {
        SeenCurrent(obs, KeyProcessed(j.u), s);
      }
    } else if !Deletes(j) {
      MostAreOrdinary(j, obs);
      hide Act;
    }
  }

  /** Only a deletion deletes a challenge's data. */
  lemma WipesByDeletions(j: Job, obs: seq<Obs>, u: Uuid)
    requires Act(j, obs).Commit?
    ensures WipesIn(Act(j, obs).writes, u) <==> Deletes(j) && j.u == u
  {
    if Deletes(j) {
      assert Act(j, obs).writes[0].DeleteData?;
    } else if !j.Claim? {
      MostAreOrdinary(j, obs);
      hide Act;
    }
  }

  /** Only a cleanup that gets its OK retires a challenge, and the challenge was LIVE. */
  lemma RetiresOnce(j: Job, obs: seq<Obs>, s: Store, born: set<Uuid>, u: Uuid)
    requires StoreOk(s, born) && Current(obs, s) && JobOk(j, s, born)
    requires Act(j, obs).Commit? && RetiresIn(Act(j, obs).writes, u)
    ensures Phase(s, born, u) == LIVE
    ensures var ws := Act(j, obs).writes; Phase(ApplyAll(ws, s), BornAfterAll(ws, born), u) == RETIRED
  {
    var ws := Act(j, obs).writes;
    var w :| w in ws && w.SetFields? && w.u == u && w.patch.state == Put(CLEANUP);
    if !j.Activate? {
      CommitIsProper(j, obs, s, born);
      hide Act, StoreOk;
      RetiringLast(ws, s, born, Mine(j), w);
    }
  }

  lemma RetiringLast(ws: seq<Write>, s: Store, born: set<Uuid>, mine: Option<Uuid>, w: Write)
    requires StoreOk(s, born) && Proper(ws, s, born, mine) && w in ws && w.SetFields? && w.patch.state == Put(CLEANUP)
    ensures Phase(s, born, w.u) == LIVE && Phase(ApplyAll(ws, s), BornAfterAll(ws, born), w.u) == RETIRED
  {
    var init, last := ws[..|ws| - 1], ws[|ws| - 1];
    assert forall i :: 0 <= i < |init| ==> init[i] != w;
    assert ws == init + [last];
    assert w == last && !Quiet(last, s, born);
    assert Retires(w.u, w.patch, s, born);
    QuietAllKeep(init, s, born);
    hide StoreOk;
    assert SameLife(s, ApplyAll(init, s), w.u);
  }

  // ---------------------------------------------------------------- what follows a job

  lemma CreatedByStart(j: Job, obs: seq<Obs>, s: Store, born: set<Uuid>)
    requires StoreOk(s, born) && Current(obs, s) && JobOk(j, s, born) && j.Start? && Decide(j.party, j.stage, obs).CreateNew?
    ensures var ws := Act(j, obs).writes; var s' := ApplyAll(ws, s);
      Phase(s', BornAfterAll(ws, born), j.created) == INITIAL && s'.Hash(j.created).stage == Some(j.stage)
  {
    StartCommits(j.joiner, j.party, j.stage, j.created, obs, s, born);
  }

  /** Whatever an unguarded job leads to, its readings show that the challenge is LIVE. */
  lemma FoundLive(j: Job, obs: seq<Obs>, next: Job, s: Store, born: set<Uuid>)
    requires Next(j, obs, Some(next)) && ReadingsOk(j, obs, s, born) && Floor(j) == UNBORN && !j.Start?
    ensures FloorOk(next, s, born) && !IsOwner(next) && Mine(next).None?
  {
    hide Phase;
    LeadsTo(j, obs, next);
    match j
    case CheckUpdate(_, c, _, _) => SeenReadingOk(j, obs, KeyPointer(c), s, born);
    case OnEvent(c, _, _) => SeenReadingOk(j, obs, KeyPointer(c), s, born);
    case Tick => SeenReadingOk(j, obs, KeyTimeouts, s, born);
    case _ =>
    hide Next;
  }

  /** What unguarded jobs lead to: a job without a claim on its challenge, or about one that a pointer or a timeout names. */
  lemma LeadsTo(j: Job, obs: seq<Obs>, next: Job)
    requires Next(j, obs, Some(next)) && Floor(j) == UNBORN && !j.Start?
    ensures !IsOwner(next) && Mine(next).None? && (Floor(next) != UNBORN ==> Floor(next) == LIVE)
    ensures Floor(next) != UNBORN ==>
      ((j.CheckUpdate? || j.OnEvent?) && PointerSeen(obs, j.c) == Some(Some(next.u))) ||
      (j.Tick? && TimeoutsSeen(obs).Some? && next.u in TimeoutsSeen(obs).value)
  {
  }

  /** A cleanup deletes what it read as gone or as somebody else's to clean up. */
  lemma DeletesRetired(j: Job, obs: seq<Obs>, next: Job, s: Store, born: set<Uuid>)
    requires Next(j, obs, Some(next)) && ReadingsOk(j, obs, s, born) && j.Cleanup?
    ensures next.u == j.u && Mine(next).None? && (next.Delete? || (next.OwnerLoad? && WonCleanup(j, obs)))
    ensures next.Delete? ==> Phase(s, born, j.u) >= RETIRED
  {
    if next.Delete? {
      SeenReadingOk(j, obs, KeyHash(j.u), s, born);
    }
  }

  /** All other jobs lead to a look at the timeouts, or to jobs about the same challenge that rely on no more than they did. */
  lemma SameChallenge(j: Job, obs: seq<Obs>, next: Job)
    requires Next(j, obs, Some(next)) && Floor(j) != UNBORN && !j.Cleanup?
    ensures next.Tick? ||
      (Floor(next) != UNBORN && next.u == j.u && Floor(next) <= Floor(j) && (IsOwner(next) ==> IsOwner(j)) && Mine(next).None?)
  {
  }

  /** The job that follows can rely on what it needs, given what the one before it read. */
  lemma NextOk(j: Job, obs: seq<Obs>, next: Job, s: Store, born: set<Uuid>)
    requires Next(j, obs, Some(next)) && FloorOk(j, s, born) && ReadingsOk(j, obs, s, born)
    requires j.Start? && Decide(j.party, j.stage, obs).CreateNew? ==>
      Phase(s, born, j.created) == INITIAL && s.Hash(j.created).stage == Some(j.stage)
    requires WonCleanup(j, obs) ==> Phase(s, born, j.u) >= RETIRED
    ensures JobOk(next, s, born)
    ensures Mine(next).Some? ==> j.Start? && Mine(next) == Mine(j) && Decide(j.party, j.stage, obs).CreateNew?
    ensures IsOwner(next) ==> Floor(j) != UNBORN && next.u == j.u && (IsOwner(j) || WonCleanup(j, obs))
  {
    if j.Start? {
      hide Decide;
    } else if Floor(j) == UNBORN {
      FoundLive(j, obs, next, s, born);
      hide Next;
    } else if j.Cleanup? {
      DeletesRetired(j, obs, next, s, born);
      hide Next;
    } else {
      SameChallenge(j, obs, next);
      hide Next;
    }
  }

  predicate WonCleanup(j: Job, obs: seq<Obs>) {
    j.Cleanup? && HashSeen(obs, j.u).Some? && ClientsSeen(obs, j.u).Some? &&
    CleanupOutcome(HashSeen(obs, j.u).value, ClientsSeen(obs, j.u).value, j.due, j.now) == OK
  }
}
