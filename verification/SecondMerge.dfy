/**
 * A run in which two jobs go on to merge the same attempt of a stage, and in which the data of a challenge
 * is deleted while another job owns it: its only client completes the stage, and two requests in entry
 * mode force a cleanup before the stage attempt is claimed.
 */
module SecondMerge {
  import opened Options
  import opened RedisStore
  import opened ChallengeStage
  import opened Transactions
  import opened ManagerJobs
  import opened LifecycleStore
  import opened ManagerEffects
  import opened ChallengeLifecycle
  import opened SequentialRuns
  import opened OneClientRuns
  import opened Ownership

  // ---------------------------------------------------------------- the jobs, run alone

  lemma CanFinish(joiner: Joiner, stage: int, u: Uuid, retriable: int -> bool, now: int, s: Store) returns (obs: seq<Obs>)
    requires s.Clients(u) == map[joiner.c := First(joiner, stage)] && s.Hash(u).party.Some?
    requires s.Hash(u).stage == Some(stage) && s.Hash(u).attempt.None? && s.Hash(u).timeoutState == Some(NO_TIMEOUT)
    ensures var j := ApplyUpdate(u, joiner.c, Completing(stage), retriable);
      RunsAlone(BodyOf(j), s, obs, [RefreshSession, ClearTimeout(u), SetClient(u, joiner.c, Finisher(joiner, stage))]) &&
      Next(j, obs, Some(MarkProcessing(u, stage, None, now)))
  {
    var j := ApplyUpdate(u, joiner.c, Completing(stage), retriable);
    var a, b := Obs(KeyHash(u), ValHash(s.Hash(u))), Obs(KeyClients(u), ValClients(s.Clients(u)));
    obs := [a, b];
    SeenFirst(a);
    SeenBoth(a, b);
    var update := StageUpdate(stage, COMPLETED);
    FinishedOutcome(u, joiner.c, update, retriable, s.Hash(u), s.Clients(u));
    var o := StageOutcome(u, joiner.c, update, retriable, s.Hash(u), s.Clients(u));
    assert s.Clients(u)[joiner.c := Finisher(joiner, stage)] == map[joiner.c := Finisher(joiner, stage)];
    assert o == Applied(Finisher(joiner, stage), NO_CHANGE, Some((stage, None)), ClearIt);
    hide StageOutcome, FinishedClient;
    assert StageWrites(u, joiner.c, o) == [ClearTimeout(u), SetClient(u, joiner.c, Finisher(joiner, stage))];
    assert Act(j, obs).writes == [RefreshSession, ClearTimeout(u), SetClient(u, joiner.c, Finisher(joiner, stage))];
    TwoReads(j, s, a.key, b.key);
  }

  lemma CanMark(u: Uuid, stage: int, now: int, s: Store)
    ensures var j := MarkProcessing(u, stage, None, now);
      RunsAlone(BodyOf(j), s, [], [SetFields(u, ProcessingPatch(now))]) && Next(j, [], Some(Load(u, stage, None, ThenStop)))
  {
  }

  lemma CanLoad(u: Uuid, stage: int, now: int, s: Store) returns (obs: seq<Obs>)
    requires stage != UNKNOWN_STAGE && s.Hash(u).party.Some? && s.Hash(u).timeoutState != Some(STAGE_END)
    ensures var j := Load(u, stage, None, ThenStop);
      RunsAlone(BodyOf(j), s, obs, []) && Next(j, obs, Some(Claim(u, stage, None, now, ThenStop)))
  {
    var o := Obs(KeyHash(u), ValHash(s.Hash(u)));
    obs := [o];
    SeenFirst(o);
    OneRead(Load(u, stage, None, ThenStop), s, o.key);
  }

  lemma CanClaim(u: Uuid, stage: int, now: int, andThen: Then, s: Store) returns (obs: seq<Obs>)
    requires (stage, None) !in s.Processed(u)
    ensures var j := Claim(u, stage, None, now, andThen);
      RunsAlone(BodyOf(j), s, obs, [SetProcessed(u, stage, None), SetFields(u, ProcessingPatch(now))]) &&
      Next(j, obs, Some(Merge(u, stage, None, Keep, andThen)))
  {
    var o := Obs(KeyProcessed(u), ValProcessed(s.Processed(u)));
    obs := [o];
    SeenFirst(o);
    OneRead(Claim(u, stage, None, now, andThen), s, o.key);
  }

  lemma CanEnter(u: Uuid, c: ClientId, retriable: int -> bool, now: int, s: Store) returns (obs: seq<Obs>)
    requires s.Hash(u).party.Some? && s.Hash(u).timeoutState != Some(CLEANUP_DUE)
    ensures var j := ApplyUpdate(u, c, ENTERING, retriable);
      RunsAlone(BodyOf(j), s, obs, [RefreshSession]) && Next(j, obs, Some(Cleanup(u, None, now)))
  {
    var j, o := ApplyUpdate(u, c, ENTERING, retriable), Obs(KeyHash(u), ValHash(s.Hash(u)));
    obs := [o];
    SeenFirst(o);
    assert Act(j, obs).writes == [RefreshSession];
    OneRead(j, s, o.key);
  }

  lemma CanWin(u: Uuid, now: int, s: Store) returns (obs: seq<Obs>)
    requires s.Hash(u).state == Some(ACTIVE)
    requires s.Hash(u).processing.Some? ==> now - s.Hash(u).processing.value >= MAX_STAGE_PROCESSING_TIME
    ensures var j := Cleanup(u, None, now);
      RunsAlone(BodyOf(j), s, obs, [SetFields(u, CLEANUP_PATCH)]) && Next(j, obs, Some(OwnerLoad(u)))
  {
    var a, b := Obs(KeyHash(u), ValHash(s.Hash(u))), Obs(KeyClients(u), ValClients(s.Clients(u)));
    obs := [a, b];
    SeenFirst(a);
    SeenBoth(a, b);
    TwoReads(Cleanup(u, None, now), s, a.key, b.key);
  }

  lemma CanOwn(u: Uuid, now: int, s: Store) returns (obs: seq<Obs>)
    requires s.Hash(u).party.Some? && s.Hash(u).stage.Some? && s.Hash(u).timeoutState != Some(STAGE_END)
    ensures var h := s.Hash(u);
      RunsAlone(BodyOf(OwnerLoad(u)), s, obs, []) &&
      Next(OwnerLoad(u), obs, Some(Claim(u, h.stage.value, h.attempt, now, ThenDelete(h.party))))
  {
    var o := Obs(KeyHash(u), ValHash(s.Hash(u)));
    obs := [o];
    SeenFirst(o);
    OneRead(OwnerLoad(u), s, o.key);
  }

  lemma CanGiveUp(u: Uuid, now: int, party: Option<Party>, s: Store) returns (obs: seq<Obs>)
    requires s.Hash(u).state == Some(CLEANUP)
    ensures var j := Cleanup(u, None, now);
      RunsAlone(BodyOf(j), s, obs, []) && Next(j, obs, Some(Delete(u, party)))
  {
    var a, b := Obs(KeyHash(u), ValHash(s.Hash(u))), Obs(KeyClients(u), ValClients(s.Clients(u)));
    obs := [a, b];
    SeenFirst(a);
    SeenBoth(a, b);
    TwoReads(Cleanup(u, None, now), s, a.key, b.key);
  }

  lemma CanDelete(u: Uuid, party: Option<Party>, s: Store)
    ensures var j := Delete(u, party); RunsAlone(BodyOf(j), s, [], [DeleteData(u, party)]) && Next(j, [], None)
  {
  }

  // ---------------------------------------------------------------- how the challenge stands in between

  function Completing(stage: int): Update {
    Update(false, Some(StageUpdate(stage, COMPLETED)))
  }

  const ENTERING := Update(true, None)

  function Finisher(joiner: Joiner, stage: int): Client {
    FinishedClient(First(joiner, stage), StageUpdate(stage, COMPLETED))
  }

  /** The client has completed the stage. */
  function Finished(joiner: Joiner, party: Party, stage: int, u: Uuid): View {
    Playing(joiner, party, stage, u).(clients := map[joiner.c := Finisher(joiner, stage)])
  }

  function Patched(v: View, p: Patch): View {
    v.(hash := p.On(v.hash))
  }

  function Taken(v: View, stage: int, now: int): View {
    Patched(v, ProcessingPatch(now)).(done := v.done + {(stage, None)})
  }

  function Emptied(v: View): View {
    View(NO_HASH, map[], {}, v.pointer, None)
  }

  lemma FinishView(joiner: Joiner, party: Party, stage: int, u: Uuid, s: Store)
    requires ViewOf(s, u, joiner.c) == Playing(joiner, party, stage, u)
    ensures
      ViewOf(ApplyAll([RefreshSession, ClearTimeout(u), SetClient(u, joiner.c, Finisher(joiner, stage))], s), u, joiner.c) ==
      Finished(joiner, party, stage, u)
  {
    var ws := [RefreshSession, ClearTimeout(u), SetClient(u, joiner.c, Finisher(joiner, stage))];
    assert ws[..2] == [RefreshSession, ClearTimeout(u)];
    assert ApplyAll(ws, s) == Apply(ws[2], ApplyAll(ws[..2], s));
    TwoApplied(RefreshSession, ClearTimeout(u), s);
    hide FinishedClient, First;
  }

  lemma PatchView(u: Uuid, c: ClientId, p: Patch, s: Store)
    ensures ViewOf(ApplyAll([SetFields(u, p)], s), u, c) == Patched(ViewOf(s, u, c), p)
  {
    OneWrite(SetFields(u, p), s);
  }

  lemma RefreshView(u: Uuid, c: ClientId, s: Store)
    ensures ViewOf(ApplyAll([RefreshSession], s), u, c) == ViewOf(s, u, c)
  {
    OneWrite(RefreshSession, s);
  }

  lemma ClaimView(u: Uuid, c: ClientId, stage: int, now: int, s: Store)
    ensures ViewOf(ApplyAll([SetProcessed(u, stage, None), SetFields(u, ProcessingPatch(now))], s), u, c) ==
      Taken(ViewOf(s, u, c), stage, now)
  {
    TwoApplied(SetProcessed(u, stage, None), SetFields(u, ProcessingPatch(now)), s);
  }

  lemma DeleteView(u: Uuid, c: ClientId, party: Option<Party>, s: Store)
    ensures ViewOf(ApplyAll([DeleteData(u, party)], s), u, c) == Emptied(ViewOf(s, u, c))
  {
    OneWrite(DeleteData(u, party), s);
  }

  // ---------------------------------------------------------------- stretches of the run

  /** The client completes the stage. */
  lemma StageFinished(joiner: Joiner, party: Party, stage: int, u: Uuid, retriable: int -> bool) returns (t: Trail)
    ensures t.Valid() && t.First() == NOTHING
    ensures Here(t.Last(), map[2 := MarkProcessing(u, stage, None, 0)], u, joiner.c, Finished(joiner, party, stage, u))
  {
    hide Behavior, Here, Apply, ApplyAll, Act, Next, RunsAlone;
    var v, jobs := Playing(joiner, party, stage, u), map[2 := ApplyUpdate(u, joiner.c, Completing(stage), retriable)];
    t := Activated(joiner, party, stage, u);
    t := UpdateChecked(t, map[], 2, u, joiner.c, Completing(stage), retriable, v);
    assert map[][2 := ApplyUpdate(u, joiner.c, Completing(stage), retriable)] == jobs;
    Stands(t.Last(), jobs, u, joiner.c, v);
    var obs := CanFinish(joiner, stage, u, retriable, 0, t.Last().db.store);
    FinishView(joiner, party, stage, u, t.Last().db.store);
    hide FinishedClient, First;
    t := Ran1(t, jobs, 2, obs, [RefreshSession, ClearTimeout(u), SetClient(u, joiner.c, Finisher(joiner, stage))],
              Some(MarkProcessing(u, stage, None, 0)), u, joiner.c, v, Finished(joiner, party, stage, u));
    assert jobs[2 := MarkProcessing(u, stage, None, 0)] == map[2 := MarkProcessing(u, stage, None, 0)];
  }

  lemma Marked(t: Trail, stage: int, u: Uuid, c: ClientId, v: View) returns (t': Trail)
    requires t.Valid() && Here(t.Last(), map[2 := MarkProcessing(u, stage, None, 0)], u, c, v)
    ensures t'.Valid() && t'.First() == t.First()
    ensures Here(t'.Last(), map[2 := Load(u, stage, None, ThenStop)], u, c, Patched(v, ProcessingPatch(0)))
  {
    hide Behavior, Here, Apply, ApplyAll, Act, Next, RunsAlone;
    var p, load := ProcessingPatch(0), Load(u, stage, None, ThenStop);
    var s, jobs := t.Last().db.store, map[2 := MarkProcessing(u, stage, None, 0)];
    Stands(t.Last(), jobs, u, c, v);
    CanMark(u, stage, 0, s);
    PatchView(u, c, p, s);
    t' := Ran1(t, jobs, 2, [], [SetFields(u, p)], Some(load), u, c, v, Patched(v, p));
    assert jobs[2 := load] == map[2 := load];
  }

  /** Its update is about to claim the stage attempt. */
  lemma Loaded(t: Trail, stage: int, u: Uuid, c: ClientId, v: View) returns (t': Trail)
    requires t.Valid() && Here(t.Last(), map[2 := Load(u, stage, None, ThenStop)], u, c, v)
    requires stage != UNKNOWN_STAGE && v.hash.party.Some? && v.hash.timeoutState == Some(NO_TIMEOUT)
    ensures t'.Valid() && t'.First() == t.First()
    ensures Here(t'.Last(), map[2 := Claim(u, stage, None, 0, ThenStop)], u, c, v)
  {
    hide Behavior, Here, Apply, ApplyAll, Act, Next, RunsAlone;
    var s, jobs, claim := t.Last().db.store, map[2 := Load(u, stage, None, ThenStop)], Claim(u, stage, None, 0, ThenStop);
    Stands(t.Last(), jobs, u, c, v);
    var obs := CanLoad(u, stage, 0, s);
    NoWrite(s);
    t' := Ran1(t, jobs, 2, obs, [], Some(claim), u, c, v, v);
    assert jobs[2 := claim] == map[2 := claim];
  }

  /** A request in entry mode goes as far as its cleanup. */
  lemma Entered(
      t: Trail, jobs: map<Tid, Job>, tid: Tid, u: Uuid, c: ClientId, retriable: int -> bool, now: int, v: View)
    returns (t': Trail)
    requires t.Valid() && Here(t.Last(), jobs, u, c, v) && tid !in jobs && v.pointer == Some(u)
    requires v.hash.party.Some? && v.hash.timeoutState == Some(NO_TIMEOUT)
    ensures t'.Valid() && t'.First() == t.First() && Here(t'.Last(), jobs[tid := Cleanup(u, None, now)], u, c, v)
  {
    hide Behavior, Here, Apply, ApplyAll, Act, Next, RunsAlone;
    var apply, cleanup := ApplyUpdate(u, c, ENTERING, retriable), Cleanup(u, None, now);
    t' := UpdateChecked(t, jobs, tid, u, c, ENTERING, retriable, v);
    var s := t'.Last().db.store;
    Stands(t'.Last(), jobs[tid := apply], u, c, v);
    var obs := CanEnter(u, c, retriable, now, s);
    RefreshView(u, c, s);
    t' := Ran1(t', jobs[tid := apply], tid, obs, [RefreshSession], Some(cleanup), u, c, v, v);
    assert jobs[tid := apply][tid := cleanup] == jobs[tid := cleanup];
  }

  /** The cleanup is won. */
  lemma Won(t: Trail, jobs: map<Tid, Job>, tid: Tid, u: Uuid, c: ClientId, now: int, v: View) returns (t': Trail)
    requires t.Valid() && Here(t.Last(), jobs[tid := Cleanup(u, None, now)], u, c, v) && v.hash.state == Some(ACTIVE)
    requires v.hash.processing.Some? ==> now - v.hash.processing.value >= MAX_STAGE_PROCESSING_TIME
    ensures t'.Valid() && t'.First() == t.First()
    ensures Here(t'.Last(), jobs[tid := OwnerLoad(u)], u, c, Patched(v, CLEANUP_PATCH))
  {
    hide Behavior, Here, Apply, ApplyAll, Act, Next, RunsAlone;
    var s, before, won := t.Last().db.store, jobs[tid := Cleanup(u, None, now)], OwnerLoad(u);
    Stands(t.Last(), before, u, c, v);
    var obs := CanWin(u, now, s);
    PatchView(u, c, CLEANUP_PATCH, s);
    t' := Ran1(t, before, tid, obs, [SetFields(u, CLEANUP_PATCH)], Some(won), u, c, v, Patched(v, CLEANUP_PATCH));
    assert before[tid := won] == jobs[tid := won];
  }

  /** Its chain goes on to claim the stage. */
  lemma Owning(
      t: Trail, jobs: map<Tid, Job>, tid: Tid, stage: int, u: Uuid, c: ClientId, now: int, party: Party, v: View)
    returns (t': Trail)
    requires t.Valid() && Here(t.Last(), jobs[tid := OwnerLoad(u)], u, c, v) && v.hash.party == Some(party)
    requires v.hash.stage == Some(stage) && v.hash.attempt.None? && v.hash.timeoutState == Some(NO_TIMEOUT)
    ensures t'.Valid() && t'.First() == t.First()
    ensures Here(t'.Last(), jobs[tid := Claim(u, stage, None, now, ThenDelete(Some(party)))], u, c, v)
  {
    hide Behavior, Here, Apply, ApplyAll, Act, Next, RunsAlone;
    var s, won, claim := t.Last().db.store, OwnerLoad(u), Claim(u, stage, None, now, ThenDelete(Some(party)));
    Stands(t.Last(), jobs[tid := won], u, c, v);
    var obs := CanOwn(u, now, s);
    NoWrite(s);
    t' := Ran1(t, jobs[tid := won], tid, obs, [], Some(claim), u, c, v, v);
    assert jobs[tid := won][tid := claim] == jobs[tid := claim];
  }

  lemma ClaimedNow(
      t: Trail, jobs: map<Tid, Job>, tid: Tid, stage: int, u: Uuid, c: ClientId, now: int, andThen: Then, v: View)
    returns (t': Trail)
    requires t.Valid() && Here(t.Last(), jobs[tid := Claim(u, stage, None, now, andThen)], u, c, v)
    requires (stage, None) !in v.done
    ensures t'.Valid() && t'.First() == t.First()
    ensures Here(t'.Last(), jobs[tid := Merge(u, stage, None, Keep, andThen)], u, c, Taken(v, stage, now))
  {
    hide Behavior, Here, Apply, ApplyAll, Act, Next, RunsAlone;
    var before, merge := jobs[tid := Claim(u, stage, None, now, andThen)], Merge(u, stage, None, Keep, andThen);
    var s := t.Last().db.store;
    Stands(t.Last(), before, u, c, v);
    var obs := CanClaim(u, stage, now, andThen, s);
    ClaimView(u, c, stage, now, s);
    t' := Ran1(t, before, tid, obs, [SetProcessed(u, stage, None), SetFields(u, ProcessingPatch(now))], Some(merge), u, c, v,
               Taken(v, stage, now));
    assert before[tid := merge] == jobs[tid := merge];
  }

  /** A cleanup that finds the challenge taken goes on to delete its data. */
  lemma GaveUp(t: Trail, jobs: map<Tid, Job>, tid: Tid, u: Uuid, c: ClientId, now: int, v: View) returns (t': Trail)
    requires t.Valid() && Here(t.Last(), jobs[tid := Cleanup(u, None, now)], u, c, v) && v.hash.state == Some(CLEANUP)
    ensures t'.Valid() && t'.First() == t.First() && Here(t'.Last(), jobs[tid := Delete(u, None)], u, c, v)
  {
    hide Behavior, Here, Apply, ApplyAll, Act, Next, RunsAlone;
    var s, before, deletion := t.Last().db.store, jobs[tid := Cleanup(u, None, now)], Delete(u, None);
    Stands(t.Last(), before, u, c, v);
    var obs := CanGiveUp(u, now, None, s);
    NoWrite(s);
    t' := Ran1(t, before, tid, obs, [], Some(deletion), u, c, v, v);
    assert before[tid := deletion] == jobs[tid := deletion];
  }

  lemma DeletedNow(t: Trail, jobs: map<Tid, Job>, tid: Tid, u: Uuid, c: ClientId, v: View) returns (t': Trail)
    requires t.Valid() && Here(t.Last(), jobs[tid := Delete(u, None)], u, c, v) && tid !in jobs
    ensures t'.Valid() && t'.First() == t.First() && Here(t'.Last(), jobs, u, c, Emptied(v))
  {
    hide Behavior, Here, Apply, ApplyAll, Act, Next, RunsAlone;
    var s, before := t.Last().db.store, jobs[tid := Delete(u, None)];
    Stands(t.Last(), before, u, c, v);
    CanDelete(u, None, s);
    DeleteView(u, c, None, s);
    t' := Ran1(t, before, tid, [], [DeleteData(u, None)], None, u, c, v, Emptied(v));
    assert before - {tid} == jobs;
  }

  // ---------------------------------------------------------------- the run

  /** How the challenge stands while its owner merges the stage. */
  function Owned(joiner: Joiner, party: Party, stage: int, u: Uuid): View {
    var marked := Patched(Finished(joiner, party, stage, u), ProcessingPatch(0));
    Taken(Patched(marked, CLEANUP_PATCH), stage, MAX_STAGE_PROCESSING_TIME)
  }

  /** One request owns the challenge and merges its stage, which the client's update is still about to claim. */
  lemma MergedByOwner(joiner: Joiner, party: Party, stage: int, u: Uuid, retriable: int -> bool) returns (t: Trail)
    requires stage != UNKNOWN_STAGE
    ensures t.Valid() && t.First() == NOTHING
    ensures Here(t.Last(), map[2 := Claim(u, stage, None, 0, ThenStop),
                               3 := Merge(u, stage, None, Keep, ThenDelete(Some(party)))],
                 u, joiner.c, Owned(joiner, party, stage, u))
  {
    hide Behavior, Here;
    var c, pending := joiner.c, map[2 := Claim(u, stage, None, 0, ThenStop)];
    var v := Finished(joiner, party, stage, u);
    t := StageFinished(joiner, party, stage, u, retriable);
    t := Marked(t, stage, u, c, v);
    v := Patched(v, ProcessingPatch(0));
    t := Loaded(t, stage, u, c, v);
    t := Entered(t, pending, 3, u, c, retriable, MAX_STAGE_PROCESSING_TIME, v);
    t := Won(t, pending, 3, u, c, MAX_STAGE_PROCESSING_TIME, v);
    v := Patched(v, CLEANUP_PATCH);
    t := Owning(t, pending, 3, stage, u, c, MAX_STAGE_PROCESSING_TIME, party, v);
    t := ClaimedNow(t, pending, 3, stage, u, c, MAX_STAGE_PROCESSING_TIME, ThenDelete(Some(party)), v);
    assert pending[3 := Merge(u, stage, None, Keep, ThenDelete(Some(party)))] ==
      map[2 := Claim(u, stage, None, 0, ThenStop), 3 := Merge(u, stage, None, Keep, ThenDelete(Some(party)))];
  }

  /**
   * From the empty store, for any client, party and stage: while one job owns the challenge and merges its
   * stage, another's deletion takes the data away, and a third then goes on to merge the same attempt.
   */
  lemma MergedTwice(joiner: Joiner, party: Party, stage: int, u: Uuid, retriable: int -> bool) returns (t: Trail)
    requires stage != UNKNOWN_STAGE
    ensures Behavior(t.states, t.events) && t.First() == NOTHING
    ensures t.Last().jobs ==
      map[2 := Merge(u, stage, None, Keep, ThenStop), 3 := Merge(u, stage, None, Keep, ThenDelete(Some(party)))]
    ensures Owns(t.Last(), 3, u) && t.Last().PhaseOf(u) == GONE
  {
    hide Behavior, Here;
    var c, v, merging := joiner.c, Owned(joiner, party, stage, u), Merge(u, stage, None, Keep, ThenDelete(Some(party)));
    var jobs := map[2 := Claim(u, stage, None, 0, ThenStop), 3 := merging];
    t := MergedByOwner(joiner, party, stage, u, retriable);
    t := Entered(t, jobs, 4, u, c, retriable, MAX_STAGE_PROCESSING_TIME, v);
    t := GaveUp(t, jobs, 4, u, c, MAX_STAGE_PROCESSING_TIME, v);
    t := DeletedNow(t, jobs, 4, u, c, v);
    assert jobs == map[3 := merging][2 := Claim(u, stage, None, 0, ThenStop)];
    t := ClaimedNow(t, map[3 := merging], 2, stage, u, c, 0, ThenStop, Emptied(v));
    assert map[3 := merging][2 := Merge(u, stage, None, Keep, ThenStop)] ==
      map[2 := Merge(u, stage, None, Keep, ThenStop), 3 := merging];
    Ends(t.Last(), map[3 := merging][2 := Merge(u, stage, None, Keep, ThenStop)], u, c, Taken(Emptied(v), stage, 0));
  }

  lemma Ends(s: System, jobs: map<Tid, Job>, u: Uuid, c: ClientId, v: View)
    requires Here(s, jobs, u, c, v) && v.hash.state.None?
    ensures s.jobs == jobs && s.PhaseOf(u) == GONE
  {
  }
}
