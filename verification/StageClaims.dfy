/** Exactly when a stage attempt is among a challenge's processed ones, and so exactly when a claim of it commits. */
module StageClaims {
  import opened Options
  import opened RedisStore
  import opened Transactions
  import opened ManagerJobs
  import opened LifecycleStore
  import opened ManagerCommits
  import opened ChallengeLifecycle

  /** The stage attempt was claimed, and the challenge's data has not been deleted since. */
  ghost predicate Outstanding(log: seq<Event>, u: Uuid, stage: int, attempt: Option<int>) {
    exists i :: 0 <= i < |log| && Claimed(log[i], u, stage, attempt) && !WipedBetween(log, i, |log|, u)
  }

  ghost predicate NeverWiped(log: seq<Event>, u: Uuid) {
    forall k :: 0 <= k < |log| ==> !Wiped(log[k], u)
  }

  lemma WipedBetweenAfter(log: seq<Event>, e: Event, i: int, u: Uuid)
    requires 0 <= i < |log|
    ensures WipedBetween(log + [e], i, |log| + 1, u) <==> WipedBetween(log, i, |log|, u) || Wiped(e, u)
  {
    hide Wiped;
    var all := log + [e];
    assert all[|log|] == e;
    if WipedBetween(log, i, |log|, u) {
      var k :| i < k < |log| && 0 <= k < |log| && Wiped(log[k], u);
      assert all[k] == log[k];
    }
    if k :| i < k < |all| && 0 <= k < |all| && Wiped(all[k], u) {
      assert k < |log| ==> all[k] == log[k];
    }
  }

  /** A commit settles what was outstanding by deleting the data, and adds what it claims. */
  lemma OutstandingAfter(log: seq<Event>, e: Event, u: Uuid, stage: int, attempt: Option<int>)
    requires Claimed(e, u, stage, attempt) ==> !Wiped(e, u)
    ensures Outstanding(log + [e], u, stage, attempt) <==>
      Claimed(e, u, stage, attempt) || (!Wiped(e, u) && Outstanding(log, u, stage, attempt))
  {
    hide Wiped, Claimed, WipedBetween;
    var all := log + [e];
    if Outstanding(log, u, stage, attempt) {
      var i :| 0 <= i < |log| && Claimed(log[i], u, stage, attempt) && !WipedBetween(log, i, |log|, u);
      assert all[i] == log[i];
      WipedBetweenAfter(log, e, i, u);
    }
    if Outstanding(all, u, stage, attempt) {
      var i :| 0 <= i < |all| && Claimed(all[i], u, stage, attempt) && !WipedBetween(all, i, |all|, u);
      if i < |log| {
        assert all[i] == log[i];
        WipedBetweenAfter(log, e, i, u);
      }
    }
    if Claimed(e, u, stage, attempt) {
      NothingAfterLast(all, u);
      assert all[|log|] == e;
    }
  }

  lemma NothingAfterLast(log: seq<Event>, u: Uuid)
    ensures !WipedBetween(log, |log| - 1, |log|, u)
  {
  }

  lemma WipeIsLast(ws: seq<Write>, s: Store, born: set<Uuid>, mine: Option<Uuid>, w: Write)
    requires Proper(ws, s, born, mine) && w in ws && w.DeleteData?
    ensures w == ws[|ws| - 1]
  {
    var init, last := ws[..|ws| - 1], ws[|ws| - 1];
    assert forall i :: 0 <= i < |init| ==> init[i] != w;
    assert ws == init + [last];
  }

  lemma LastWipes(ws: seq<Write>, s: Store)
    requires ws != [] && ws[|ws| - 1].DeleteData?
    ensures ApplyAll(ws, s).Processed(ws[|ws| - 1].u) == {}
  {
    var m := ApplyAll(ws[..|ws| - 1], s);
    assert ApplyAll(ws, s) == Apply(ws[|ws| - 1], m);
    hide ApplyAll;
  }

  /** A commit that deletes a challenge's data leaves none of its stages processed. */
  lemma WipeForgets(j: Job, obs: seq<Obs>, s: Store, born: set<Uuid>, u: Uuid)
    requires StoreOk(s, born) && Current(obs, s) && JobOk(j, s, born)
    requires Act(j, obs).Commit? && WipesIn(Act(j, obs).writes, u)
    ensures ApplyAll(Act(j, obs).writes, s).Processed(u) == {}
  {
    hide Act, StoreOk, Apply, ApplyAll, JobOk;
    var ws := Act(j, obs).writes;
    WipesByDeletions(j, obs, u);
    var w :| w in ws && w.DeleteData? && w.u == u;
    CommitIsProper(j, obs, s, born);
    WipeIsLast(ws, s, born, Mine(j), w);
    LastWipes(ws, s);
  }

  /** The processed stages after a commit. */
  lemma ProcessedAfter(j: Job, obs: seq<Obs>, s: Store, born: set<Uuid>, u: Uuid, stage: int, attempt: Option<int>)
    requires StoreOk(s, born) && Current(obs, s) && JobOk(j, s, born) && Act(j, obs).Commit? && Act(j, obs).writes != []
    ensures var ws := Act(j, obs).writes;
      (stage, attempt) in ApplyAll(ws, s).Processed(u) <==>
      SetProcessed(u, stage, attempt) in ws || (!WipesIn(ws, u) && (stage, attempt) in s.Processed(u))
    ensures SetProcessed(u, stage, attempt) in Act(j, obs).writes ==> !WipesIn(Act(j, obs).writes, u)
  {
    var ws := Act(j, obs).writes;
    if SetProcessed(u, stage, attempt) in ws {
      ClaimsAreNew(j, obs, s, SetProcessed(u, stage, attempt));
    }
    if WipesIn(ws, u) {
      WipeForgets(j, obs, s, born, u);
    } else {
      ProcessedKept(ws, s, u, stage, attempt);
    }
    hide Act, ApplyAll, StoreOk;
  }

  lemma NeverWipedAfter(log: seq<Event>, e: Event, u: Uuid)
    ensures NeverWiped(log + [e], u) <==> NeverWiped(log, u) && !Wiped(e, u)
  {
    hide Wiped;
    var all := log + [e];
    assert all[|log|] == e;
    assert forall k :: 0 <= k < |log| ==> all[k] == log[k];
  }

  lemma ProcessedStep(s: System, e: Happening, s': System, u: Uuid, stage: int, attempt: Option<int>, before: bool)
    requires SystemOk(s) && SystemStep(s, e, s')
    requires (stage, attempt) in s.db.store.Processed(u) <==>
      Outstanding(s.db.log, u, stage, attempt) || (before && NeverWiped(s.db.log, u))
    ensures (stage, attempt) in s'.db.store.Processed(u) <==>
      Outstanding(s'.db.log, u, stage, attempt) || (before && NeverWiped(s'.db.log, u))
  {
    if e.Do? && e.step.Exec? {
      var tid := e.step.tid;
      ReadsAreCurrent(s, tid, s'.db);
      var j, r := s.jobs[tid], s.db.runs[tid];
      ProcessedAfter(j, r.obs, s.db.store, s.born, u, stage, attempt);
      var event := Event(r.body, r.obs, Act(j, r.obs).writes);
      assert s'.db.log == s.db.log + [event] && s'.db.store == ApplyAll(event.writes, s.db.store);
      hide Act, ApplyAll, SystemOk, SystemStep, Outstanding, NeverWiped;
      OutstandingAfter(s.db.log, event, u, stage, attempt);
      NeverWipedAfter(s.db.log, event, u);
    }
  }

  /**
   * In every reachable state a stage attempt is among the processed ones if and only if it was claimed
   * since the challenge's data was last deleted, or was there at the start and the data never deleted.
   */
  lemma {:induction false} ProcessedIffClaimed(
      states: seq<System>, events: seq<Happening>, n: nat, u: Uuid, stage: int, attempt: Option<int>)
    requires Behavior(states, events) && n < |states|
    ensures (stage, attempt) in states[n].db.store.Processed(u) <==>
      Outstanding(states[n].db.log, u, stage, attempt) ||
      ((stage, attempt) in states[0].db.store.Processed(u) && NeverWiped(states[n].db.log, u))
  {
    hide SystemOk, SystemStep;
    if n > 0 {
      ProcessedIffClaimed(states, events, n - 1, u, stage, attempt);
      SystemOkHolds(states, events, n - 1);
      assert SystemStep(states[n - 1], events[n - 1], states[n - 1 + 1]);
      ProcessedStep(states[n - 1], events[n - 1], states[n], u, stage, attempt,
                    (stage, attempt) in states[0].db.store.Processed(u));
    }
  }

  lemma ClaimReads(s: System, tid: Tid)
    requires SystemOk(s) && tid in s.jobs && tid in s.db.runs && !s.db.runs[tid].dirty && s.jobs[tid].Claim?
    requires Act(s.jobs[tid], s.db.runs[tid].obs).Commit?
    ensures var j := s.jobs[tid];
      Act(j, s.db.runs[tid].obs).writes != [] <==> (j.stage, j.attempt) !in s.db.store.Processed(j.u)
  {
    var j, r := s.jobs[tid], s.db.runs[tid];
    assert RunOk(r, s.db.store);
    assert Current(r.obs, s.db.store);
    if Seen(r.obs, KeyProcessed(j.u)).Some? {
      SeenCurrent(r.obs, KeyProcessed(j.u), s.db.store);
    }
  }

  /**
   * A claim whose reading nobody has touched goes on to commit if and only if its stage attempt has not
   * been claimed since the challenge's data was last deleted, nor left from before the run.
   */
  lemma ClaimsIffNotOutstanding(states: seq<System>, events: seq<Happening>, n: nat, tid: Tid)
    requires Behavior(states, events) && n < |states| && tid in states[n].jobs && tid in states[n].db.runs
    requires states[n].jobs[tid].Claim? && !states[n].db.runs[tid].dirty
    requires Act(states[n].jobs[tid], states[n].db.runs[tid].obs).Commit?
    ensures var j := states[n].jobs[tid];
      Act(j, states[n].db.runs[tid].obs).writes != [] <==>
      !Outstanding(states[n].db.log, j.u, j.stage, j.attempt) &&
      !((j.stage, j.attempt) in states[0].db.store.Processed(j.u) && NeverWiped(states[n].db.log, j.u))
  {
    SystemOkHolds(states, events, n);
    ClaimReads(states[n], tid);
    var j := states[n].jobs[tid];
    hide SystemOk, SystemStep, Act, Outstanding, NeverWiped;
    ProcessedIffClaimed(states, events, n, j.u, j.stage, j.attempt);
  }
}
