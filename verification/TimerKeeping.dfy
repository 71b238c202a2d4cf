/**
 * When does an active challenge that nobody is connected to keep the timer that will end it? Not
 * always: the commits that lose it are named here, and every other step of every run keeps it.
 */
module TimerKeeping {
  import opened Options
  import opened RedisStore
  import opened ChallengeStage
  import opened Transactions
  import opened ManagerJobs
  import opened LifecycleStore
  import opened ManagerCommits
  import opened ManagerEffects
  import opened ChallengeLifecycle
  import opened ManagerRuns

  ghost predicate Unattended(s: Store, u: Uuid) {
    s.Hash(u).state == Some(ACTIVE) && s.Clients(u) == map[]
  }

  /** If nobody is connected to the challenge while it is active, its timeout state is set. */
  ghost predicate Kept(s: Store, u: Uuid) {
    Unattended(s, u) ==> TimeoutStateOf(s.Hash(u)) != NO_TIMEOUT
  }

  /** The commit takes the last client of an active challenge away without a timer, or the timer although nobody is left. */
  ghost predicate Drops(j: Job, s: Store, u: Uuid) {
    s.Hash(u).state == Some(ACTIVE) &&
    match j
    case ApplyUpdate(v, _, _, _) => v == u && s.Clients(u) == map[] && s.Hash(u).timeoutState == Some(CLEANUP_DUE)
    case ClearStageEnd(v, _, _, _) => v == u && s.Clients(u) == map[]
    case ClearStale(v) => v == u && s.Clients(u) == map[]
    case SetActive(v, c, token) => v == u && DropsLast(s, u, c, token)
    case SetInactive(v, c, token) => v == u && DropsLast(s, u, c, token)
    case _ => false
  }

  /** The only client listed has moved to another challenge, and no timer runs. */
  ghost predicate DropsLast(s: Store, u: Uuid, c: ClientId, token: int) {
    s.Clients(u).Keys == {c} && s.Clients(u)[c].token == token && s.Pointer(c) != Some(u) &&
    TimeoutStateOf(s.Hash(u)) == NO_TIMEOUT
  }

  // ---------------------------------------------------------------- lists of writes

  /** No write takes a client or the timer of the challenge away. */
  predicate Calm(w: Write, u: Uuid) {
    Target(w) == Some(u) ==>
      match w
      case RemoveClient(_, _) => false
      case DeleteData(_, _) => false
      case ClearTimeout(_) => false
      case SetTimeout(_, state, _) => state != NO_TIMEOUT
      case SetFields(_, p) => p.timeoutState.Keep?
      case _ => true
  }

  /** No write takes a client of the challenge away. */
  predicate Gentle(w: Write, u: Uuid) {
    !(w.RemoveClient? && w.u == u) && !(w.DeleteData? && w.u == u)
  }

  predicate AllCalm(ws: seq<Write>, u: Uuid) {
    forall i :: 0 <= i < |ws| ==> Calm(ws[i], u)
  }

  predicate AllGentle(ws: seq<Write>, u: Uuid) {
    forall i :: 0 <= i < |ws| ==> Gentle(ws[i], u)
  }

  lemma CalmWrite(w: Write, s: Store, u: Uuid)
    requires Calm(w, u)
    ensures TimeoutStateOf(s.Hash(u)) != NO_TIMEOUT ==> TimeoutStateOf(Apply(w, s).Hash(u)) != NO_TIMEOUT
  {
    if Target(w) != Some(u) {
      WriteFrame(w, s, u);
    }
  }

  lemma GentleWrite(w: Write, s: Store, u: Uuid)
    requires Gentle(w, u)
    ensures s.Clients(u) != map[] ==> Apply(w, s).Clients(u) != map[]
  {
    if Target(w) != Some(u) {
      WriteFrame(w, s, u);
    }
  }

  lemma {:induction false} CalmWrites(ws: seq<Write>, s: Store, u: Uuid)
    requires AllCalm(ws, u)
    ensures TimeoutStateOf(s.Hash(u)) != NO_TIMEOUT ==> TimeoutStateOf(ApplyAll(ws, s).Hash(u)) != NO_TIMEOUT
  {
    hide Apply, Calm;
    if ws != [] {
      CalmWrites(ws[..|ws| - 1], s, u);
      CalmWrite(ws[|ws| - 1], ApplyAll(ws[..|ws| - 1], s), u);
    }
  }

  lemma {:induction false} GentleWrites(ws: seq<Write>, s: Store, u: Uuid)
    requires AllGentle(ws, u)
    ensures s.Clients(u) != map[] ==> ApplyAll(ws, s).Clients(u) != map[]
  {
    hide Apply, Gentle;
    if ws != [] {
      GentleWrites(ws[..|ws| - 1], s, u);
      GentleWrite(ws[|ws| - 1], ApplyAll(ws[..|ws| - 1], s), u);
    }
  }

  lemma CalmIsGentle(ws: seq<Write>, u: Uuid)
    requires AllCalm(ws, u)
    ensures AllGentle(ws, u)
  {
  }

  // ---------------------------------------------------------------- the commits, job by job

  /** The jobs that may take a client or a timer away from their challenge. */
  predicate Delicate(j: Job) {
    j.Start? || j.Activate? || j.AbortCreate? || j.Add? || j.ApplyUpdate? || j.Finish? || j.SetActive? || j.SetInactive? ||
    j.Remove? || j.ClearStageEnd? || j.ClearStale? || j.Cleanup? || j.Delete? ||
    j.OwnerDelete?
  }

  lemma PlainJobsAreCalm(j: Job, obs: seq<Obs>, u: Uuid)
    requires Act(j, obs).Commit? && !Delicate(j)
    ensures AllCalm(Act(j, obs).writes, u)
  {
  }

  predicate OfClient(j: Job) {
    j.ApplyUpdate? || j.Finish? || j.SetActive? || j.SetInactive? || j.Remove?
  }

  lemma StageWritesCalm(v: Uuid, c: ClientId, o: Outcome, u: Uuid)
    ensures AllGentle(StageWrites(v, c, o), v) && (u != v ==> AllCalm(StageWrites(v, c, o), u))
  {
  }

  lemma ActiveWritesCalm(v: Uuid, h: Hash, u: Uuid)
    ensures var ws := ClearIfDue(v, h) + [RefreshSession]; AllGentle(ws, v) && (u != v ==> AllCalm(ws, u))
  {
  }

  lemma Together(a: seq<Write>, b: seq<Write>, u: Uuid)
    ensures AllCalm(a, u) && AllCalm(b, u) ==> AllCalm(a + b, u)
    ensures AllGentle(a, u) && AllGentle(b, u) ==> AllGentle(a + b, u)
  {
    hide Calm, Gentle;
  }

  /** An update removes no client, and leaves other challenges' timers alone. */
  lemma UpdateIsCalm(j: Job, obs: seq<Obs>, u: Uuid)
    requires j.ApplyUpdate? && Act(j, obs).Commit?
    ensures var ws := Act(j, obs).writes; AllGentle(ws, j.u) && (u != j.u ==> AllCalm(ws, u))
  {
    hide AllCalm, AllGentle, StageWrites, StageOutcome, ClearIfDue, Malformed;
    var hash, clients, ws := HashSeen(obs, j.u), ClientsSeen(obs, j.u), Act(j, obs).writes;
    var active := ClearIfDue(j.u, hash.value) + [RefreshSession];
    ActiveWritesCalm(j.u, hash.value, u);
    NothingIsCalm(u);
    NothingIsCalm(j.u);
    if j.update.stage.Some? && clients.Some? {
      var o := StageOutcome(j.u, j.c, j.update.stage.value, j.retriable, hash.value, clients.value);
      StageWritesCalm(j.u, j.c, o, u);
      Together(active, StageWrites(j.u, j.c, o), u);
      Together(active, StageWrites(j.u, j.c, o), j.u);
    }
  }

  lemma NothingIsCalm(u: Uuid)
    ensures AllCalm([], u) && AllGentle([], u)
  {
  }

  lemma ClientsAreCalm(j: Job, obs: seq<Obs>, u: Uuid)
    requires Act(j, obs).Commit? && OfClient(j) && j.u != u
    ensures AllCalm(Act(j, obs).writes, u)
  {
    if j.ApplyUpdate? {
      UpdateIsCalm(j, obs, u);
      hide Act;
    }
  }

  /** No job touches the clients or the timer of a challenge it is not about. */
  lemma OthersAreCalm(j: Job, obs: seq<Obs>, u: Uuid)
    requires Act(j, obs).Commit? && Delicate(j) && !j.Start? && j.u != u
    ensures AllCalm(Act(j, obs).writes, u)
  {
    hide CleanupOutcome;
    if OfClient(j) {
      ClientsAreCalm(j, obs, u);
      hide Act, AllCalm;
    }
  }

  lemma CalmKeeps(ws: seq<Write>, s: Store, u: Uuid)
    requires AllCalm(ws, u) && Kept(s, u) && s.Hash(u).state == Some(ACTIVE)
    ensures Kept(ApplyAll(ws, s), u)
  {
    CalmIsGentle(ws, u);
    CalmWrites(ws, s, u);
    GentleWrites(ws, s, u);
    hide ApplyAll, AllCalm;
  }

  /** Only its activation makes a challenge active. */
  lemma WasActive(j: Job, s: Store, born: set<Uuid>, obs: seq<Obs>, s': Store, u: Uuid)
    requires StoreOk(s, born) && JobOk(j, s, born) && Ran(j, s, obs, s') && s'.Hash(u).state == Some(ACTIVE)
    ensures s.Hash(u).state == Some(ACTIVE) || (j.Activate? && j.u == u)
  {
    var ws := Act(j, obs).writes;
    if ws == [] {
      NoWrite(s);
    } else {
      RanReads(j, s, obs, s', u, 0);
      CommitKeeps(j, obs, s, born);
      var born' := BornAfterAll(ws, born);
      hide Act, ApplyAll, BornAfterAll, Ran;
      assert Moved(s, born, s', born', Mine(j), u);
      assert ChallengeOk(s, born, u) && ChallengeOk(s', born', u);
      StartsUnborn(j, s, born, s', born', u);
    }
  }

  lemma StartsUnborn(j: Job, s: Store, born: set<Uuid>, s': Store, born': set<Uuid>, u: Uuid)
    requires JobOk(j, s, born) && Moved(s, born, s', born', Mine(j), u) && s'.Hash(u).state == Some(ACTIVE)
    requires ChallengeOk(s, born, u) && ChallengeOk(s', born', u)
    ensures s.Hash(u).state == Some(ACTIVE) || (Mine(j) == Some(u) && Phase(s, born, u) == INITIAL && !j.Start?)
  {
  }

  lemma JoinsKeep(j: Job, s: Store, obs: seq<Obs>, s': Store)
    requires (j.Activate? || (j.Add? && s.Hash(j.u).state == Some(ACTIVE))) && Ran(j, s, obs, s')
    ensures Kept(s', j.u)
  {
    hide Ran;
    if j.Activate? {
      ActivateEffect(j.u, j.joiner, j.party, j.stage, s, obs, s');
    } else {
      AddEffect(j.u, j.joiner, s, obs, s');
    }
  }

  /** Starting adds a client to an active challenge, or is about one that is not active yet. */
  lemma StartKeeps(j: Job, s: Store, born: set<Uuid>, obs: seq<Obs>, s': Store, u: Uuid)
    requires j.Start? && StoreOk(s, born) && JobOk(j, s, born) && Ran(j, s, obs, s')
    requires Kept(s, u) && s.Hash(u).state == Some(ACTIVE)
    ensures Kept(s', u)
  {
    RanReads(j, s, obs, s', u, 0);
    assert ChallengeOk(s, born, j.created);
    hide Decide;
    match Decide(j.party, j.stage, obs)
    case CreateNew(_) =>
      assert AllCalm(Act(j, obs).writes, u);
      CalmKeeps(Act(j, obs).writes, s, u);
    case JoinLater(last) =>
      StartCommits(j.joiner, j.party, j.stage, j.created, obs, s, born);
      DecidedBy(j.party, j.stage, obs);
      ChallengeSeen(obs, last, s);
      LiveBy(s, born, last);
      assert Act(j, obs).writes == [];
      NoWrite(s);
    case JoinNow(last) =>
      DecidedBy(j.party, j.stage, obs);
      StartJoins(j, s, obs, s', last);
      if last != u {
        assert AllCalm(Act(j, obs).writes, u);
        CalmKeeps(Act(j, obs).writes, s, u);
      }
  }

  lemma FinishKeeps(j: Job, s: Store, born: set<Uuid>, obs: seq<Obs>, s': Store)
    requires j.Finish? && StoreOk(s, born) && Ran(j, s, obs, s') && Kept(s, j.u) && s.Hash(j.u).state == Some(ACTIVE)
    ensures Kept(s', j.u)
  {
    RanReads(j, s, obs, s', j.u, j.c);
    if s.Pointer(j.c) == Some(j.u) {
      LiveBy(s, born, j.u);
      assert PointerOk(s, born, j.c);
      FinishEffect(j.u, j.c, j.soft, j.reported, s, obs, s');
      hide Ran;
    } else {
      assert Act(j, obs).writes == [];
      NoWrite(s);
    }
  }

  lemma RemoveKeeps(j: Job, s: Store, obs: seq<Obs>, s': Store)
    requires j.Remove? && Ran(j, s, obs, s') && Kept(s, j.u) && s.Hash(j.u).state == Some(ACTIVE)
    ensures Kept(s', j.u)
  {
    RanReads(j, s, obs, s', j.u, j.c);
    if j.c in s.Clients(j.u) && s.Clients(j.u)[j.c].token == j.token {
      RemoveEffect(j.u, j.c, j.token, s, obs, s');
      hide Ran;
    } else {
      assert Act(j, obs).writes == [];
      NoWrite(s);
    }
  }

  /** Removing a client that is listed leaves nobody exactly if it was the only one. */
  lemma OnlyClient(s: Store, u: Uuid, c: ClientId, s': Store)
    requires s' == Apply(RemoveClient(u, c), s) && c in s.Clients(u)
    ensures s'.Clients(u) == map[] <==> s.Clients(u).Keys == {c}
    ensures s'.Hash(u) == s.Hash(u)
  {
    RemoveClientApplied(u, c, s);
    hide Apply;
    assert s'.Clients(u).Keys == s.Clients(u).Keys - {c};
    assert s'.Clients(u) == map[] <==> s'.Clients(u).Keys == {};
  }

  lemma StatusWrites(j: Job, s: Store, obs: seq<Obs>, s': Store)
    requires (j.SetActive? || j.SetInactive?) && Ran(j, s, obs, s') && s.Hash(j.u) != NO_HASH
    requires j.c in s.Clients(j.u) && s.Clients(j.u)[j.c].token == j.token
    ensures s.Pointer(j.c) != Some(j.u) ==> s' == Apply(RemoveClient(j.u, j.c), s)
    ensures s.Pointer(j.c) == Some(j.u) && s.Clients(j.u)[j.c].active == j.SetActive? ==> s' == s
  {
    hide ApplyAll, RunsAlone, Apply;
    RanReads(j, s, obs, s', j.u, j.c);
    NoWrite(s);
    OneWrite(RemoveClient(j.u, j.c), s);
  }

  lemma StrangerWrites(j: Job, s: Store, obs: seq<Obs>, s': Store)
    requires (j.SetActive? || j.SetInactive?) && Ran(j, s, obs, s')
    requires j.c !in s.Clients(j.u) || s.Clients(j.u)[j.c].token != j.token
    ensures s'.Clients(j.u) == s.Clients(j.u) && s'.Hash(j.u) == s.Hash(j.u)
  {
    hide ApplyAll, RunsAlone, Apply;
    RanReads(j, s, obs, s', j.u, j.c);
    NoWrite(s);
    OneWrite(RemoveClient(j.u, j.c), s);
    RemoveClientApplied(j.u, j.c, s);
    assert j.c !in s.Clients(j.u) ==> s.Clients(j.u) - {j.c} == s.Clients(j.u);
  }

  /** A client that goes idle or comes back drops the challenge exactly if it was its last and has moved on. */
  lemma StatusKeeps(j: Job, s: Store, obs: seq<Obs>, s': Store)
    requires (j.SetActive? || j.SetInactive?) && Ran(j, s, obs, s') && Kept(s, j.u) && s.Hash(j.u).state == Some(ACTIVE)
    ensures Kept(s', j.u) <==> !DropsLast(s, j.u, j.c, j.token)
  {
    hide Apply, Ran;
    if j.c !in s.Clients(j.u) || s.Clients(j.u)[j.c].token != j.token {
      StrangerWrites(j, s, obs, s');
    } else {
      StatusWrites(j, s, obs, s');
      if s.Pointer(j.c) != Some(j.u) {
        OnlyClient(s, j.u, j.c, s');
      } else if s.Clients(j.u)[j.c].active && j.SetInactive? {
        SetInactiveEffect(j.u, j.c, j.token, s, obs, s');
        assert j.c in s'.Clients(j.u);
      } else if !s.Clients(j.u)[j.c].active && j.SetActive? {
        SetActiveEffect(j.u, j.c, j.token, s, obs, s');
        assert j.c in s'.Clients(j.u);
      }
    }
  }

  /** With nobody connected, all that an update does is to call off a cleanup that is due. */
  lemma UpdateAlone(j: Job, s: Store, obs: seq<Obs>, s': Store)
    requires j.ApplyUpdate? && Ran(j, s, obs, s') && s.Clients(j.u) == map[] && s.Hash(j.u) != NO_HASH
    ensures s' == if s.Hash(j.u).timeoutState == Some(CLEANUP_DUE) then Apply(ClearTimeout(j.u), s) else s
  {
    hide Apply, ApplyAll, RunsAlone;
    RanReads(j, s, obs, s', j.u, j.c);
    assert Act(j, obs).writes == ClearIfDue(j.u, s.Hash(j.u)) + [RefreshSession];
    hide Act;
    ActiveWrites(j.u, s.Hash(j.u), s);
  }

  /** An update drops the challenge exactly if nobody is connected any more and a cleanup is due. */
  lemma UpdateKeeps(j: Job, s: Store, obs: seq<Obs>, s': Store)
    requires j.ApplyUpdate? && Ran(j, s, obs, s') && Kept(s, j.u) && s.Hash(j.u).state == Some(ACTIVE)
    ensures Kept(s', j.u) <==> !Drops(j, s, j.u)
  {
    hide Act, Apply, ApplyAll;
    if s.Clients(j.u) == map[] {
      UpdateAlone(j, s, obs, s');
      ClearTimeoutApplied(j.u, s);
    } else {
      UpdateIsCalm(j, obs, j.u);
      GentleWrites(Act(j, obs).writes, s, j.u);
    }
  }

  lemma ClearKeeps(j: Job, s: Store, obs: seq<Obs>, s': Store)
    requires (j.ClearStageEnd? || j.ClearStale?) && Ran(j, s, obs, s') && Kept(s, j.u) && s.Hash(j.u).state == Some(ACTIVE)
    ensures Kept(s', j.u) <==> !Drops(j, s, j.u)
  {
    hide Apply, ApplyAll, RunsAlone;
    OneWrite(ClearTimeout(j.u), s);
    ClearTimeoutApplied(j.u, s);
  }

  lemma CleanupIsGentle(j: Job, s: Store, obs: seq<Obs>)
    requires j.Cleanup? && Act(j, obs).Commit? && HashSeen(obs, j.u) == Some(s.Hash(j.u))
    ensures var ws := Act(j, obs).writes;
      AllGentle(ws, j.u) &&
      (ws == [SetFields(j.u, CLEANUP_PATCH)] || TimeoutStateOf(s.Hash(j.u)) == NO_TIMEOUT || AllCalm(ws, j.u))
  {
    hide CleanupOutcome;
  }

  lemma CleanupKeeps(j: Job, s: Store, obs: seq<Obs>, s': Store)
    requires j.Cleanup? && Ran(j, s, obs, s') && Kept(s, j.u) && s.Hash(j.u).state == Some(ACTIVE)
    ensures Kept(s', j.u)
  {
    RanReads(j, s, obs, s', j.u, 0);
    CleanupIsGentle(j, s, obs);
    hide Act, Apply, ApplyAll, RunsAlone;
    var ws := Act(j, obs).writes;
    OneWrite(SetFields(j.u, CLEANUP_PATCH), s);
    SetFieldsApplied(j.u, CLEANUP_PATCH, s);
    if s.Clients(j.u) != map[] {
      GentleWrites(ws, s, j.u);
    } else if ws != [SetFields(j.u, CLEANUP_PATCH)] {
      CalmKeeps(ws, s, j.u);
    }
  }

  lemma DeleteKeeps(j: Job, s: Store, obs: seq<Obs>, s': Store)
    requires (j.Delete? || j.OwnerDelete? || j.AbortCreate?) && Ran(j, s, obs, s')
    ensures Kept(s', j.u)
  {
    var w := DeleteData(j.u, if j.AbortCreate? then Some(j.party) else j.ofParty);
    OneWrite(w, s);
    hide ApplyAll, RunsAlone;
  }

  lemma ActiveKeeps(j: Job, s: Store, born: set<Uuid>, obs: seq<Obs>, s': Store, u: Uuid)
    requires StoreOk(s, born) && JobOk(j, s, born) && Ran(j, s, obs, s') && Kept(s, u) && s.Hash(u).state == Some(ACTIVE)
    ensures Kept(s', u) <==> !Drops(j, s, u)
  {
    if j.Start? {
      StartKeeps(j, s, born, obs, s', u);
    } else if !Delicate(j) {
      PlainJobsAreCalm(j, obs, u);
      CalmKeeps(Act(j, obs).writes, s, u);
    } else if j.u != u {
      OthersAreCalm(j, obs, u);
      CalmKeeps(Act(j, obs).writes, s, u);
    } else {
      OwnKeeps(j, s, born, obs, s');
    }
    hide Act, Ran, Kept;
  }

  lemma OwnKeeps(j: Job, s: Store, born: set<Uuid>, obs: seq<Obs>, s': Store)
    requires Delicate(j) && !j.Start? && StoreOk(s, born) && Ran(j, s, obs, s')
    requires Kept(s, j.u) && s.Hash(j.u).state == Some(ACTIVE)
    ensures Kept(s', j.u) <==> !Drops(j, s, j.u)
  {
    hide StoreOk, Ran, Kept, DropsLast;
    match j
    case Activate(_, _, _, _) => JoinsKeep(j, s, obs, s');
    case Add(_, _) => JoinsKeep(j, s, obs, s');
    case AbortCreate(_, _) => DeleteKeeps(j, s, obs, s');
    case Delete(_, _) => DeleteKeeps(j, s, obs, s');
    case OwnerDelete(_, _) => DeleteKeeps(j, s, obs, s');
    case ApplyUpdate(_, _, _, _) => UpdateKeeps(j, s, obs, s');
    case Finish(_, _, _, _) => FinishKeeps(j, s, born, obs, s');
    case Remove(_, _, _) => RemoveKeeps(j, s, obs, s');
    case SetActive(_, _, _) => StatusKeeps(j, s, obs, s');
    case SetInactive(_, _, _) => StatusKeeps(j, s, obs, s');
    case Cleanup(_, _, _) => CleanupKeeps(j, s, obs, s');
    case ClearStageEnd(_, _, _, _) => ClearKeeps(j, s, obs, s');
    case ClearStale(_) => ClearKeeps(j, s, obs, s');
  }

  /** A commit loses the timer of a challenge nobody is connected to exactly if it is one of those named. */
  lemma CommitKeepsTimer(j: Job, s: Store, born: set<Uuid>, obs: seq<Obs>, s': Store, u: Uuid)
    requires StoreOk(s, born) && JobOk(j, s, born) && Ran(j, s, obs, s') && Kept(s, u)
    ensures Kept(s', u) <==> !Drops(j, s, u)
  {
    if s.Hash(u).state == Some(ACTIVE) {
      ActiveKeeps(j, s, born, obs, s', u);
    } else if s'.Hash(u).state == Some(ACTIVE) {
      WasActive(j, s, born, obs, s', u);
      JoinsKeep(j, s, obs, s');
    }
    hide Act, Ran;
  }

  // ---------------------------------------------------------------- over steps and runs

  /** The step commits a job that loses the timer. */
  ghost predicate DropsAt(s: System, e: Happening, u: Uuid) {
    e.Do? && e.step.Exec? && e.step.tid in s.jobs && Drops(s.jobs[e.step.tid], s.db.store, u)
  }

  lemma StepKeepsTimer(s: System, e: Happening, s': System, u: Uuid)
    requires SystemOk(s) && SystemStep(s, e, s') && Kept(s.db.store, u)
    ensures Kept(s'.db.store, u) <==> !DropsAt(s, e, u)
  {
    if e.Do? && e.step.Exec? {
      var tid := e.step.tid;
      CommittedRan(s, tid, e.next, s');
      var j, obs := s.jobs[tid], s.db.runs[tid].obs;
      hide Ran, SystemOk, SystemStep, Drops, Kept;
      CommitKeepsTimer(j, s.db.store, s.born, obs, s'.db.store, u);
    }
  }

  /**
   * Over any run, an active challenge that nobody is connected to keeps its timer all the time if and
   * only if no commit of the run is one of those that lose it.
   */
  lemma {:induction false} TimerKeptUnlessDropped(states: seq<System>, events: seq<Happening>, n: nat, u: Uuid)
    requires Behavior(states, events) && n < |states| && Kept(states[0].db.store, u)
    ensures (forall m :: 0 <= m <= n ==> Kept(states[m].db.store, u)) <==>
      (forall m :: 0 <= m < n ==> !DropsAt(states[m], events[m], u))
  {
    hide Kept, DropsAt, SystemOk, SystemStep;
    if n > 0 {
      TimerKeptUnlessDropped(states, events, n - 1, u);
      SystemOkHolds(states, events, n - 1);
      if Kept(states[n - 1].db.store, u) {
        assert SystemStep(states[n - 1], events[n - 1], states[n - 1 + 1]);
        StepKeepsTimer(states[n - 1], events[n - 1], states[n], u);
      }
    }
  }

  /** The check for active clients that commits leaves the timer kept, even if it was lost before. */
  lemma CheckRestoresTimer(s: System, tid: Tid, next: Option<Job>, s': System, u: Uuid)
    requires SystemOk(s) && SystemStep(s, Do(Exec(tid), next), s') && s.jobs[tid] == CheckActive(u)
    ensures Kept(s'.db.store, u)
  {
    CommittedRan(s, tid, next, s');
    var obs := s.db.runs[tid].obs;
    CheckActiveEffect(u, s.db.store, obs, s'.db.store);
  }
}
