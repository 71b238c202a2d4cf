/**
 * Runs that leave an active challenge with nobody connected and without a timer: through an update, through the
 * late clearing of a timeout, and through the removal of a client that has moved on to another challenge.
 */
module LostTimer {
  import opened Options
  import opened RedisStore
  import opened ChallengeStage
  import opened Transactions
  import opened ManagerJobs
  import opened LifecycleStore
  import opened ManagerEffects
  import opened ChallengeLifecycle
  import opened TimerKeeping
  import opened SequentialRuns
  import opened OneClientRuns

  // ---------------------------------------------------------------- the jobs, run alone

  lemma CanRemove(u: Uuid, c: ClientId, client: Client, s: Store) returns (obs: seq<Obs>)
    requires s.Clients(u) == map[c := client] && s.Hash(u).state == Some(ACTIVE)
    ensures var j := Remove(u, c, client.token);
      RunsAlone(BodyOf(j), s, obs, [RemoveClient(u, c), SetTimeout(u, CLEANUP_DUE, Timeout(3))]) && Next(j, obs, None)
  {
    var j := Remove(u, c, client.token);
    var a, b := Obs(KeyClients(u), ValClients(s.Clients(u))), Obs(KeyHash(u), ValHash(s.Hash(u)));
    obs := [a, b];
    SeenFirst(a);
    SeenBoth(a, b);
    assert |map[c := client]| == 1;
    assert Act(j, obs).writes == [RemoveClient(u, c), SetTimeout(u, CLEANUP_DUE, Timeout(3))];
    TwoReads(j, s, a.key, b.key);
  }

  lemma CanUpdate(u: Uuid, c: ClientId, update: StageUpdate, retriable: int -> bool, s: Store) returns (obs: seq<Obs>)
    requires s.Clients(u) == map[] && s.Hash(u).party.Some? && s.Hash(u).timeoutState == Some(CLEANUP_DUE)
    requires update.stage >= s.Hash(u).stage.GetOr(UNKNOWN_STAGE)
    ensures var j := ApplyUpdate(u, c, Update(false, Some(update)), retriable);
      RunsAlone(BodyOf(j), s, obs, [ClearTimeout(u), RefreshSession]) && Next(j, obs, None)
  {
    var j := ApplyUpdate(u, c, Update(false, Some(update)), retriable);
    var a, b := Obs(KeyHash(u), ValHash(s.Hash(u))), Obs(KeyClients(u), ValClients(s.Clients(u)));
    obs := [a, b];
    SeenFirst(a);
    SeenBoth(a, b);
    assert StageOutcome(u, c, update, retriable, s.Hash(u), s.Clients(u)) == Rejected;
    assert Act(j, obs).writes == [ClearTimeout(u), RefreshSession];
    TwoReads(j, s, a.key, b.key);
  }

  lemma CanTick(u: Uuid, timeout: Timeout, s: Store) returns (obs: seq<Obs>)
    requires u in s.timeouts && s.timeouts[u] == timeout
    ensures RunsAlone(BodyOf(Tick), s, obs, []) && Next(Tick, obs, Some(TickState(u, timeout)))
  {
    var o := Obs(KeyTimeouts, ValTimeouts(s.timeouts));
    obs := [o];
    SeenFirst(o);
    OneRead(Tick, s, o.key);
  }

  lemma CanTickInVain(s: Store) returns (obs: seq<Obs>)
    ensures RunsAlone(BodyOf(Tick), s, obs, []) && Next(Tick, obs, None)
  {
    var o := Obs(KeyTimeouts, ValTimeouts(s.timeouts));
    obs := [o];
    SeenFirst(o);
    OneRead(Tick, s, o.key);
  }

  lemma CanTickStale(u: Uuid, timeout: Timeout, s: Store) returns (obs: seq<Obs>)
    requires s.Hash(u).timeoutState == Some(NO_TIMEOUT)
    ensures RunsAlone(BodyOf(TickState(u, timeout)), s, obs, []) && Next(TickState(u, timeout), obs, Some(ClearStale(u)))
  {
    var o := Obs(KeyHash(u), ValHash(s.Hash(u)));
    obs := [o];
    SeenFirst(o);
    OneRead(TickState(u, timeout), s, o.key);
  }

  lemma CanClearStale(u: Uuid, s: Store)
    ensures RunsAlone(BodyOf(ClearStale(u)), s, [], [ClearTimeout(u)]) && Next(ClearStale(u), [], Some(Tick))
  {
  }

  lemma CanCheckAdd(u: Uuid, joiner: Joiner, s: Store) returns (obs: seq<Obs>)
    requires s.Pointer(joiner.c) == None
    ensures var j := CheckAdd(u, joiner); RunsAlone(BodyOf(j), s, obs, []) && Next(j, obs, Some(Add(u, joiner)))
  {
    var o := Obs(KeyPointer(joiner.c), ValPointer(None));
    obs := [o];
    SeenFirst(o);
    OneRead(CheckAdd(u, joiner), s, o.key);
  }

  lemma CanAdd(u: Uuid, joiner: Joiner, stage: int, s: Store) returns (obs: seq<Obs>)
    requires s.Clients(u) == map[] && s.Hash(u).party.Some? && s.Hash(u).state == Some(ACTIVE)
    requires s.Hash(u).stage == Some(stage) && s.Hash(u).attempt.None? && s.Hash(u).timeoutState == Some(CLEANUP_DUE)
    ensures var j := Add(u, joiner);
      RunsAlone(BodyOf(j), s, obs, [SetClient(u, joiner.c, First(joiner, stage)), ClearTimeout(u)]) && Next(j, obs, None)
  {
    var j, a, b := Add(u, joiner), Obs(KeyHash(u), ValHash(s.Hash(u))), Obs(KeyClients(u), ValClients(s.Clients(u)));
    obs := [a, b];
    SeenFirst(a);
    SeenBoth(a, b);
    assert Act(j, obs).writes == [SetClient(u, joiner.c, First(joiner, stage)), ClearTimeout(u)];
    TwoReads(j, s, a.key, b.key);
  }

  lemma CanDropLast(u: Uuid, c: ClientId, client: Client, s: Store) returns (obs: seq<Obs>)
    requires s.Clients(u) == map[c := client] && s.Pointer(c) != Some(u) && s.Hash(u).party.Some?
    ensures var j := SetInactive(u, c, client.token); RunsAlone(BodyOf(j), s, obs, [RemoveClient(u, c)]) && Next(j, obs, None)
  {
    var j, p := SetInactive(u, c, client.token), Obs(KeyPointer(c), ValPointer(s.Pointer(c)));
    var a, b := Obs(KeyHash(u), ValHash(s.Hash(u))), Obs(KeyClients(u), ValClients(s.Clients(u)));
    obs := [p, a, b];
    SeenFirst(p);
    SeenBoth(p, a);
    assert [p, a][..1] == [p] && Seen([p, a], b.key) == None;
    SeenAll(p, a, b);
    assert Act(j, obs).writes == [RemoveClient(u, c)];
    ThreeReads(j, s, p.key, a.key, b.key);
  }

  // ---------------------------------------------------------------- a client leaves and returns

  /** The challenge after its only client has left and its timer has started. */
  function Deserted(joiner: Joiner, party: Party, stage: int, u: Uuid): View {
    var v := Playing(joiner, party, stage, u);
    v.(hash := v.hash.(timeoutState := Some(CLEANUP_DUE)), clients := map[], pointer := None, timeout := Some(Timeout(3)))
  }

  /** The same without the timer. */
  function Stranded(joiner: Joiner, party: Party, stage: int, u: Uuid): View {
    Playing(joiner, party, stage, u).(clients := map[], pointer := None)
  }

  lemma DesertedView(joiner: Joiner, party: Party, stage: int, u: Uuid, s: Store)
    requires ViewOf(s, u, joiner.c) == Playing(joiner, party, stage, u)
    ensures ViewOf(ApplyAll([RemoveClient(u, joiner.c), SetTimeout(u, CLEANUP_DUE, Timeout(3))], s), u, joiner.c) ==
      Deserted(joiner, party, stage, u)
  {
    TwoApplied(RemoveClient(u, joiner.c), SetTimeout(u, CLEANUP_DUE, Timeout(3)), s);
    assert map[joiner.c := First(joiner, stage)] - {joiner.c} == map[];
  }

  lemma StrandedView(joiner: Joiner, party: Party, stage: int, u: Uuid, s: Store)
    requires ViewOf(s, u, joiner.c) == Deserted(joiner, party, stage, u)
    ensures ViewOf(ApplyAll([ClearTimeout(u)], s), u, joiner.c) == Stranded(joiner, party, stage, u)
    ensures ViewOf(ApplyAll([ClearTimeout(u), RefreshSession], s), u, joiner.c) == Stranded(joiner, party, stage, u)
  {
    OneWrite(ClearTimeout(u), s);
    TwoApplied(ClearTimeout(u), RefreshSession, s);
  }

  lemma ReturnView(joiner: Joiner, party: Party, stage: int, u: Uuid, s: Store)
    requires ViewOf(s, u, joiner.c) == Deserted(joiner, party, stage, u)
    ensures ViewOf(ApplyAll([SetClient(u, joiner.c, First(joiner, stage)), ClearTimeout(u)], s), u, joiner.c) ==
      Playing(joiner, party, stage, u)
  {
    TwoApplied(SetClient(u, joiner.c, First(joiner, stage)), ClearTimeout(u), s);
  }

  lemma StrandedIsNotKept(s: System, jobs: map<Tid, Job>, joiner: Joiner, party: Party, stage: int, u: Uuid)
    requires Here(s, jobs, u, joiner.c, Stranded(joiner, party, stage, u))
    ensures s.jobs == jobs && s.db.runs == map[] && !Kept(s.db.store, u) && u !in s.db.store.timeouts
  {
  }

  /** The only client disconnects, and the timer starts. */
  lemma Left(t: Trail, jobs: map<Tid, Job>, tid: Tid, joiner: Joiner, party: Party, stage: int, u: Uuid) returns (t': Trail)
    requires t.Valid() && Here(t.Last(), jobs, u, joiner.c, Playing(joiner, party, stage, u)) && tid !in jobs
    ensures t'.Valid() && t'.First() == t.First() && Here(t'.Last(), jobs, u, joiner.c, Deserted(joiner, party, stage, u))
  {
    hide Behavior, Here, Apply, ApplyAll, Act, Next, RunsAlone;
    var v, remove := Playing(joiner, party, stage, u), Remove(u, joiner.c, joiner.token);
    t' := EventHeard(t, jobs, tid, u, joiner.c, joiner.token, ClientDisconnected, v);
    var s := t'.Last().db.store;
    Stands(t'.Last(), jobs[tid := remove], u, joiner.c, v);
    var obs := CanRemove(u, joiner.c, First(joiner, stage), s);
    DesertedView(joiner, party, stage, u, s);
    t' := Ran1(t', jobs[tid := remove], tid, obs, [RemoveClient(u, joiner.c), SetTimeout(u, CLEANUP_DUE, Timeout(3))], None, u,
               joiner.c, v, Deserted(joiner, party, stage, u));
    assert jobs[tid := remove] - {tid} == jobs;
  }

  /** The client comes back, which calls the timer off. */
  lemma Returned(t: Trail, jobs: map<Tid, Job>, tid: Tid, joiner: Joiner, party: Party, stage: int, u: Uuid) returns (t': Trail)
    requires t.Valid() && Here(t.Last(), jobs, u, joiner.c, Deserted(joiner, party, stage, u)) && tid !in jobs
    ensures t'.Valid() && t'.First() == t.First() && Here(t'.Last(), jobs, u, joiner.c, Playing(joiner, party, stage, u))
  {
    hide Behavior, Here, Apply, ApplyAll, Act, Next, RunsAlone;
    var v, check, add := Deserted(joiner, party, stage, u), CheckAdd(u, joiner), Add(u, joiner);
    t' := Came(t, jobs, tid, check, u, joiner.c, v);
    var s := t'.Last().db.store;
    Stands(t'.Last(), jobs[tid := check], u, joiner.c, v);
    var obs := CanCheckAdd(u, joiner, s);
    NoWrite(s);
    t' := Ran1(t', jobs[tid := check], tid, obs, [], Some(add), u, joiner.c, v, v);
    assert jobs[tid := check][tid := add] == jobs[tid := add];
    s := t'.Last().db.store;
    Stands(t'.Last(), jobs[tid := add], u, joiner.c, v);
    obs := CanAdd(u, joiner, stage, s);
    ReturnView(joiner, party, stage, u, s);
    t' := Ran1(t', jobs[tid := add], tid, obs, [SetClient(u, joiner.c, First(joiner, stage)), ClearTimeout(u)], None, u,
               joiner.c, v, Playing(joiner, party, stage, u));
    assert jobs[tid := add] - {tid} == jobs;
  }

  // ---------------------------------------------------------------- lost to an update

  /**
   * A client disconnects between its update's check of its pointer and the update's transaction, which finds
   * it gone and still calls the timer off. From the empty store, for any client, party, stage and update.
   */
  lemma TimerLost(
      joiner: Joiner, party: Party, stage: int, u: Uuid, status: StageStatus, retriable: int -> bool) returns (t: Trail)
    ensures Behavior(t.states, t.events) && t.First() == NOTHING
    ensures var s := t.Last(); s.jobs == map[] && s.db.runs == map[] && !Kept(s.db.store, u) && u !in s.db.store.timeouts
  {
    hide Behavior, Here, Apply, ApplyAll, Act, Next, RunsAlone, Kept;
    var c, update, v := joiner.c, StageUpdate(stage, status), Deserted(joiner, party, stage, u);
    var pending := ApplyUpdate(u, c, Update(false, Some(update)), retriable);
    t := Activated(joiner, party, stage, u);
    t := UpdateChecked(t, map[], 2, u, c, Update(false, Some(update)), retriable, Playing(joiner, party, stage, u));
    assert map[][2 := pending] == map[2 := pending];
    t := Left(t, map[2 := pending], 3, joiner, party, stage, u);
    var s := t.Last().db.store;
    Stands(t.Last(), map[2 := pending], u, c, v);
    var obs := CanUpdate(u, c, update, retriable, s);
    StrandedView(joiner, party, stage, u, s);
    t := Ran1(t, map[2 := pending], 2, obs, [ClearTimeout(u), RefreshSession], None, u, c, v,
              Stranded(joiner, party, stage, u));
    assert map[2 := pending] - {2} == map[];
    StrandedIsNotKept(t.Last(), map[], joiner, party, stage, u);
  }

  // ---------------------------------------------------------------- lost to the timer itself

  /** The timer is seen, and called off before its state is looked up. */
  lemma StaleSeen(joiner: Joiner, party: Party, stage: int, u: Uuid) returns (t: Trail)
    ensures t.Valid() && t.First() == NOTHING
    ensures Here(t.Last(), map[2 := TickState(u, Timeout(3))], u, joiner.c, Playing(joiner, party, stage, u))
  {
    hide Behavior, Here, Apply, ApplyAll, Act, Next, RunsAlone;
    var c, v, look := joiner.c, Deserted(joiner, party, stage, u), TickState(u, Timeout(3));
    t := Activated(joiner, party, stage, u);
    t := Left(t, map[], 3, joiner, party, stage, u);
    t := Came(t, map[], 2, Tick, u, c, v);
    assert map[][2 := Tick] == map[2 := Tick];
    var s := t.Last().db.store;
    Stands(t.Last(), map[2 := Tick], u, c, v);
    var obs := CanTick(u, Timeout(3), s);
    NoWrite(s);
    t := Ran1(t, map[2 := Tick], 2, obs, [], Some(look), u, c, v, v);
    assert map[2 := Tick][2 := look] == map[2 := look];
    t := Returned(t, map[2 := look], 3, joiner, party, stage, u);
  }

  /** The timeout looks stale, and the client disconnects again. */
  lemma StaleFound(joiner: Joiner, party: Party, stage: int, u: Uuid) returns (t: Trail)
    ensures t.Valid() && t.First() == NOTHING
    ensures Here(t.Last(), map[2 := ClearStale(u)], u, joiner.c, Deserted(joiner, party, stage, u))
  {
    hide Behavior, Here, Apply, ApplyAll, Act, Next, RunsAlone;
    var v, look, clear := Playing(joiner, party, stage, u), TickState(u, Timeout(3)), ClearStale(u);
    t := StaleSeen(joiner, party, stage, u);
    var s := t.Last().db.store;
    Stands(t.Last(), map[2 := look], u, joiner.c, v);
    var obs := CanTickStale(u, Timeout(3), s);
    NoWrite(s);
    t := Ran1(t, map[2 := look], 2, obs, [], Some(clear), u, joiner.c, v, v);
    assert map[2 := look][2 := clear] == map[2 := clear];
    t := Left(t, map[2 := clear], 3, joiner, party, stage, u);
  }

  /**
   * A client returns after the timer has read the timeouts, so that its timeout looks stale, and disconnects
   * again before that is cleared: the clearing takes the new timer away.
   */
  lemma TimerClearedLate(joiner: Joiner, party: Party, stage: int, u: Uuid) returns (t: Trail)
    ensures Behavior(t.states, t.events) && t.First() == NOTHING
    ensures var s := t.Last(); s.jobs == map[] && s.db.runs == map[] && !Kept(s.db.store, u) && u !in s.db.store.timeouts
  {
    hide Behavior, Here, Apply, ApplyAll, Act, Next, RunsAlone, Kept;
    var c, v, clear := joiner.c, Stranded(joiner, party, stage, u), ClearStale(u);
    t := StaleFound(joiner, party, stage, u);
    var s := t.Last().db.store;
    Stands(t.Last(), map[2 := clear], u, c, Deserted(joiner, party, stage, u));
    CanClearStale(u, s);
    StrandedView(joiner, party, stage, u, s);
    t := Ran1(t, map[2 := clear], 2, [], [ClearTimeout(u)], Some(Tick), u, c, Deserted(joiner, party, stage, u), v);
    assert map[2 := clear][2 := Tick] == map[2 := Tick];
    s := t.Last().db.store;
    Stands(t.Last(), map[2 := Tick], u, c, v);
    var obs := CanTickInVain(s);
    NoWrite(s);
    t := Ran1(t, map[2 := Tick], 2, obs, [], None, u, c, v, v);
    assert map[2 := Tick] - {2} == map[];
    StrandedIsNotKept(t.Last(), map[], joiner, party, stage, u);
  }

  // ---------------------------------------------------------------- lost to a client that has moved on

  /** The client has moved to another challenge. */
  function Moved(joiner: Joiner, party: Party, stage: int, u: Uuid, other: Uuid): View {
    Playing(joiner, party, stage, u).(pointer := Some(other))
  }

  lemma OtherCreated(joiner: Joiner, party: Party, stage: int, u: Uuid, v: Uuid, s: Store)
    requires u != v
    ensures ViewOf(ApplyAll([PushParty(party, v), SetFields(v, BirthPatch(stage))], s), u, joiner.c) == ViewOf(s, u, joiner.c)
  {
    TwoApplied(PushParty(party, v), SetFields(v, BirthPatch(stage)), s);
  }

  lemma OtherActivated(joiner: Joiner, party: Party, stage: int, u: Uuid, v: Uuid, client: Client, s: Store)
    requires u != v
    ensures ViewOf(ApplyAll([SetFields(v, ActivePatch(stage, party)), SetClient(v, joiner.c, client)], s), u, joiner.c) ==
      ViewOf(s, u, joiner.c).(pointer := Some(v))
  {
    TwoApplied(SetFields(v, ActivePatch(stage, party)), SetClient(v, joiner.c, client), s);
  }

  lemma LastDropped(joiner: Joiner, party: Party, stage: int, u: Uuid, v: Uuid, s: Store)
    requires ViewOf(s, u, joiner.c) == Moved(joiner, party, stage, u, v) && u != v
    ensures ViewOf(ApplyAll([RemoveClient(u, joiner.c)], s), u, joiner.c) ==
      Stranded(joiner, party, stage, u).(pointer := Some(v))
  {
    OneWrite(RemoveClient(u, joiner.c), s);
    assert map[joiner.c := First(joiner, stage)] - {joiner.c} == map[];
  }

  /** The same client starts two challenges, of different parties. */
  lemma BothCreated(joiner: Joiner, party: Party, other: Party, stage: int, u: Uuid, v: Uuid) returns (t: Trail)
    requires party != other && u != v
    ensures t.Valid() && t.First() == NOTHING
    ensures Here(t.Last(), map[1 := Activate(u, joiner, party, stage), 3 := Activate(v, joiner, other, stage)], u, joiner.c,
                 Newborn(stage))
  {
    hide Behavior, Here, Apply, ApplyAll, Act, Next, RunsAlone;
    var c, first, second := joiner.c, map[1 := Activate(u, joiner, party, stage)], Activate(v, joiner, other, stage);
    var start := Start(joiner, other, stage, v);
    t := Created(joiner, party, stage, u);
    var s := t.Last().db.store;
    t := StartCame(t, first, 3, start, u, c, Newborn(stage));
    Stands(t.Last(), first[3 := start], u, c, Newborn(stage));
    var obs := CanStart(joiner, other, stage, v, s);
    OtherCreated(joiner, other, stage, u, v, s);
    t := Ran1(t, first[3 := start], 3, obs, [PushParty(other, v), SetFields(v, BirthPatch(stage))], Some(second), u, c,
              Newborn(stage), Newborn(stage));
    assert first[3 := start][3 := second] == map[1 := Activate(u, joiner, party, stage), 3 := second];
  }

  lemma StartCame(t: Trail, jobs: map<Tid, Job>, tid: Tid, job: Job, u: Uuid, c: ClientId, v: View) returns (t': Trail)
    requires t.Valid() && Here(t.Last(), jobs, u, c, v) && tid !in jobs && job.Start? && job.created !in t.Last().minted
    ensures t'.Valid() && t'.First() == t.First() && Here(t'.Last(), jobs[tid := job], u, c, v)
    ensures t'.Last().db.store == t.Last().db.store
  {
    hide Behavior;
    t' := Arrived(t, tid, job);
  }

  /** The first becomes active and hears that the client is idle; then the client moves on to the second. */
  lemma MovedOn(joiner: Joiner, party: Party, other: Party, stage: int, u: Uuid, v: Uuid) returns (t: Trail)
    requires party != other && u != v
    ensures t.Valid() && t.First() == NOTHING
    ensures Here(t.Last(), map[2 := SetInactive(u, joiner.c, joiner.token)], u, joiner.c, Moved(joiner, party, stage, u, v))
  {
    hide Behavior, Here, Apply, ApplyAll, Act, Next, RunsAlone;
    var c, idle := joiner.c, SetInactive(u, joiner.c, joiner.token);
    var first, second := Activate(u, joiner, party, stage), Activate(v, joiner, other, stage);
    t := BothCreated(joiner, party, other, stage, u, v);
    t := FirstActive(t, joiner, party, stage, u, second);
    t := EventHeard(t, map[3 := second], 2, u, c, joiner.token, ClientIdle, Playing(joiner, party, stage, u));
    var s, jobs := t.Last().db.store, map[3 := second][2 := idle];
    Stands(t.Last(), jobs, u, c, Playing(joiner, party, stage, u));
    var obs := CanActivate(joiner, other, stage, v, s);
    var client := Joined(s.Clients(v), joiner, stage, None);
    OtherActivated(joiner, other, stage, u, v, client, s);
    hide Joined;
    t := Ran1(t, jobs, 3, obs, [SetFields(v, ActivePatch(stage, other)), SetClient(v, c, client)], None, u, c,
              Playing(joiner, party, stage, u), Moved(joiner, party, stage, u, v));
    assert jobs - {3} == map[2 := idle];
  }

  lemma FirstActive(t: Trail, joiner: Joiner, party: Party, stage: int, u: Uuid, second: Job) returns (t': Trail)
    requires t.Valid()
    requires Here(t.Last(), map[1 := Activate(u, joiner, party, stage), 3 := second], u, joiner.c, Newborn(stage))
    ensures t'.Valid() && t'.First() == t.First()
    ensures Here(t'.Last(), map[3 := second], u, joiner.c, Playing(joiner, party, stage, u))
  {
    hide Behavior, Here, Apply, ApplyAll, Act, Next, RunsAlone;
    var s, jobs := t.Last().db.store, map[1 := Activate(u, joiner, party, stage), 3 := second];
    Stands(t.Last(), jobs, u, joiner.c, Newborn(stage));
    var obs := CanActivate(joiner, party, stage, u, s);
    ActivateView(joiner, party, stage, u, s);
    t' := Ran1(t, jobs, 1, obs, [SetFields(u, ActivePatch(stage, party)), SetClient(u, joiner.c, First(joiner, stage))],
               None, u, joiner.c, Newborn(stage), Playing(joiner, party, stage, u));
    assert jobs - {1} == map[3 := second];
  }

  /**
   * A client that was heard to be idle starts another challenge before that is handled: it is then removed
   * from the first, where it was the last, and no timer starts.
   */
  lemma TimerNeverSet(joiner: Joiner, party: Party, other: Party, stage: int, u: Uuid, v: Uuid) returns (t: Trail)
    requires party != other && u != v
    ensures Behavior(t.states, t.events) && t.First() == NOTHING
    ensures var s := t.Last(); s.jobs == map[] && s.db.runs == map[] && !Kept(s.db.store, u) && u !in s.db.store.timeouts
  {
    hide Behavior, Apply, ApplyAll, Act, Next, RunsAlone;
    var c, idle := joiner.c, SetInactive(u, joiner.c, joiner.token);
    t := MovedOn(joiner, party, other, stage, u, v);
    var s := t.Last().db.store;
    var obs := CanDropLast(u, c, First(joiner, stage), s);
    LastDropped(joiner, party, stage, u, v, s);
    t := Ran1(t, map[2 := idle], 2, obs, [RemoveClient(u, c)], None, u, c, Moved(joiner, party, stage, u, v),
              Stranded(joiner, party, stage, u).(pointer := Some(v)));
    assert map[2 := idle] - {2} == map[];
  }
}
