/**
 * How long the data of a challenge stays once a cleanup was won: the code takes the winner for its only
 * owner, but another cleanup that comes too late deletes the data all the same.
 */
module Ownership {
  import opened Options
  import opened RedisStore
  import opened Transactions
  import opened ManagerJobs
  import opened LifecycleStore
  import opened ManagerCommits
  import opened ChallengeLifecycle

  /** The chain of jobs won the challenge's cleanup and is finishing it. */
  predicate Owns(s: System, tid: Tid, u: Uuid) {
    tid in s.jobs && IsOwner(s.jobs[tid]) && s.jobs[tid].u == u
  }

  /** The step commits a deletion by a chain that did not win the cleanup. */
  predicate DeletesAt(s: System, e: Happening, u: Uuid) {
    e.Do? && e.step.Exec? && e.step.tid in s.jobs && s.jobs[e.step.tid].Delete? && s.jobs[e.step.tid].u == u
  }

  predicate OwnerDeletesAt(s: System, e: Happening, u: Uuid) {
    e.Do? && e.step.Exec? && e.step.tid in s.jobs && s.jobs[e.step.tid].OwnerDelete? && s.jobs[e.step.tid].u == u
  }

  // ---------------------------------------------------------------- single commits

  lemma TurnKeepsRetired(w: Write, s: Store, born: set<Uuid>, mine: Option<Uuid>, u: Uuid)
    requires Phase(s, born, u) == RETIRED && (Quiet(w, s, born) || Turn(w, s, born, mine)) && !(w.DeleteData? && w.u == u)
    ensures Apply(w, s).Hash(u).state == Some(CLEANUP)
  {
    if Target(w) != Some(u) {
      WriteFrame(w, s, u);
    } else if w.SetFields? {
      assert Apply(w, s).Hash(u) == w.patch.On(s.Hash(u));
    } else {
      QuietSameLife(w, s, born);
      assert SameLife(s, Apply(w, s), u);
    }
  }

  lemma ProperKeepsRetired(ws: seq<Write>, s: Store, born: set<Uuid>, mine: Option<Uuid>, u: Uuid)
    requires StoreOk(s, born) && Proper(ws, s, born, mine) && Phase(s, born, u) == RETIRED && !WipesIn(ws, u)
    ensures ApplyAll(ws, s).Hash(u).state == Some(CLEANUP)
  {
    hide Apply, StoreOk, Quiet, Turn;
    var init, last := ws[..|ws| - 1], ws[|ws| - 1];
    var m := ApplyAll(init, s);
    QuietAllKeep(init, s, born);
    assert SameLife(s, m, u);
    if Quiet(last, s, born) {
      QuietLater(last, s, m, born);
    } else {
      TurnLater(last, s, m, born, mine);
    }
    TurnKeepsRetired(last, m, born, mine, u);
  }

  /** A commit keeps a retired challenge's data if and only if it is not a deletion of it. */
  lemma CommitKeepsRetired(j: Job, obs: seq<Obs>, s: Store, born: set<Uuid>, u: Uuid)
    requires StoreOk(s, born) && Current(obs, s) && JobOk(j, s, born) && Phase(s, born, u) == RETIRED
    requires Act(j, obs).Commit? && Act(j, obs).writes != []
    ensures ApplyAll(Act(j, obs).writes, s).Hash(u).state == Some(CLEANUP) <==> !((j.Delete? || j.OwnerDelete?) && j.u == u)
  {
    WipesByDeletions(j, obs, u);
    if Deletes(j) && j.u == u {
      OnlyWipes(j, obs, s);
    } else if j.Activate? {
      ActivationElsewhere(j, obs, s, born, u);
    } else {
      CommitIsProper(j, obs, s, born);
      hide Act, StoreOk;
      ProperKeepsRetired(Act(j, obs).writes, s, born, Mine(j), u);
    }
    hide Act, ApplyAll;
  }

  lemma OnlyWipes(j: Job, obs: seq<Obs>, s: Store)
    requires Deletes(j)
    ensures Act(j, obs).Commit? && ApplyAll(Act(j, obs).writes, s).Hash(j.u).state.None?
  {
    var w := DeleteData(j.u, if j.AbortCreate? then Some(j.party) else j.ofParty);
    assert Act(j, obs).writes == [w] && [w][..0] == [];
    assert ApplyAll([w], s) == Apply(w, ApplyAll([], s));
  }

  lemma ActivationElsewhere(j: Job, obs: seq<Obs>, s: Store, born: set<Uuid>, u: Uuid)
    requires StoreOk(s, born) && Current(obs, s) && JobOk(j, s, born) && Phase(s, born, u) == RETIRED && j.Activate?
    requires Act(j, obs).Commit? && Act(j, obs).writes != []
    ensures ApplyAll(Act(j, obs).writes, s).Hash(u).state == Some(CLEANUP)
  {
    var ws := Act(j, obs).writes;
    TwoWrites(ws[0], ws[1], s, born);
    assert ws == [ws[0], ws[1]];
    WriteFrame(ws[0], s, u);
    WriteFrame(ws[1], Apply(ws[0], s), u);
    hide Apply, ApplyAll;
  }

  /** What a commit step is in terms of its job. */
  lemma CommitOf(s: System, tid: Tid, next: Option<Job>, s': System)
    requires SystemOk(s) && SystemStep(s, Do(Exec(tid), next), s')
    ensures tid in s.jobs && tid in s.db.runs && StoreOk(s.db.store, s.born)
    ensures var j, obs, store := s.jobs[tid], s.db.runs[tid].obs, s.db.store;
      Current(obs, store) && JobOk(j, store, s.born) && Act(j, obs).Commit? && Act(j, obs).writes != [] &&
      s'.db.store == ApplyAll(Act(j, obs).writes, store) && AllMoved(store, s.born, s'.db.store, s'.born, Mine(j))
  {
    hide Inv, StoreOk, JobsOk, WinsOk, ClaimsOk, Act, ApplyAll, AllMoved, Next;
    ReadsAreCurrent(s, tid, s'.db);
    ExecKeeps(s, tid, next, s');
  }

  lemma OnlyCommitsChange(s: System, e: Happening, s': System)
    requires SystemStep(s, e, s') && !(e.Do? && e.step.Exec?)
    ensures s'.db.store == s.db.store && s'.born == s.born
  {
  }

  /** A retired challenge's data stays over a step if and only if the step does not commit a deletion of it. */
  lemma StepKeepsRetired(s: System, e: Happening, s': System, u: Uuid)
    requires SystemOk(s) && SystemStep(s, e, s') && s.PhaseOf(u) == RETIRED
    ensures s'.PhaseOf(u) == RETIRED <==> !DeletesAt(s, e, u) && !OwnerDeletesAt(s, e, u)
  {
    hide Act, ApplyAll, SystemOk, SystemStep, StoreOk, JobOk, Current;
    if e.Do? && e.step.Exec? {
      var tid := e.step.tid;
      CommitOf(s, tid, e.next, s');
      var j := s.jobs[tid];
      CommitKeepsRetired(j, s.db.runs[tid].obs, s.db.store, s.born, u);
      assert Moved(s.db.store, s.born, s'.db.store, s'.born, Mine(j), u);
    } else {
      OnlyCommitsChange(s, e, s');
    }
  }

  // ---------------------------------------------------------------- while a chain owns the data

  /** A chain comes to own a challenge only by the commit that wins its cleanup, and the data is there then. */
  lemma OwnershipBegins(s: System, e: Happening, s': System, tid: Tid, u: Uuid)
    requires SystemOk(s) && SystemStep(s, e, s') && Owns(s', tid, u) && !Owns(s, tid, u)
    ensures e == Do(Exec(tid), Some(OwnerLoad(u))) && s.PhaseOf(u) == LIVE && s'.PhaseOf(u) == RETIRED
  {
    hide SystemOk, Owns;
    OwnerArises(s, e, s', tid, u);
    var next := e.next;
    ReadsAreCurrent(s, tid, s'.db);
    var j, obs := s.jobs[tid], s.db.runs[tid].obs;
    CommitOf(s, tid, next, s');
    WinningCommit(j, obs, s.db.store, s.born);
    assert s'.born == BornAfterAll(Act(j, obs).writes, s.born);
    hide Act, ApplyAll;
  }

  lemma OwnerArises(s: System, e: Happening, s': System, tid: Tid, u: Uuid)
    requires SystemOk(s) && SystemStep(s, e, s') && Owns(s', tid, u) && !Owns(s, tid, u)
    ensures e == Do(Exec(tid), Some(OwnerLoad(u))) && tid in s.jobs && tid in s.db.runs
    ensures WonCleanup(s.jobs[tid], s.db.runs[tid].obs) && s.jobs[tid].u == u
  {
    hide Inv, StoreOk, JobsOk, WinsOk, ClaimsOk;
    assert e.Do? && (e.step.Exec? || e.step.Return?) && e.step.tid == tid && e.next == Some(s'.jobs[tid]);
    assert s.db.runs[tid].body(s.db.runs[tid].obs) == Act(s.jobs[tid], s.db.runs[tid].obs);
    NewOwner(s.jobs[tid], s.db.runs[tid].obs, s'.jobs[tid], u);
    assert Act(s.jobs[tid], s.db.runs[tid].obs).writes != [];
    hide Next;
  }

  lemma NewOwner(j: Job, obs: seq<Obs>, next: Job, u: Uuid)
    requires Next(j, obs, Some(next)) && IsOwner(next) && next.u == u && !(IsOwner(j) && j.u == u)
    ensures WonCleanup(j, obs) && next == OwnerLoad(u) && j.u == u
  {
    if IsOwner(j) {
      OwnerStays(j, obs, next);
    } else {
      OwnersWon(j, obs, next);
    }
  }

  lemma OneOwner(s: System, a: Tid, b: Tid, u: Uuid)
    requires SystemOk(s) && Owns(s, a, u) && Owns(s, b, u)
    ensures a == b
  {
    hide Inv, StoreOk, WinsOk, ClaimsOk, RunsOk, JobOk;
    assert a != b ==> Apart(s.jobs[a], s.jobs[b]);
  }

  lemma DeletionEnds(s: System, e: Happening, s': System, u: Uuid)
    requires SystemStep(s, e, s') && OwnerDeletesAt(s, e, u)
    ensures e.step.tid !in s'.jobs && Owns(s, e.step.tid, u)
  {
  }

  /** As long as the chain still owns the data, neither it nor any other owner has deleted it. */
  lemma OwnerHasNotDeleted(s: System, e: Happening, s': System, tid: Tid, u: Uuid)
    requires SystemOk(s) && SystemStep(s, e, s') && Owns(s, tid, u) && Owns(s', tid, u)
    ensures !OwnerDeletesAt(s, e, u)
  {
    hide SystemOk, SystemStep;
    if OwnerDeletesAt(s, e, u) {
      DeletionEnds(s, e, s', u);
      OneOwner(s, e.step.tid, tid, u);
    }
  }

  /**
   * While a chain of jobs owns a challenge's data, the data stays if and only if no other chain commits
   * a deletion of it.
   */
  lemma {:induction false} OwnedDataStays(states: seq<System>, events: seq<Happening>, m: nat, n: nat, tid: Tid, u: Uuid)
    requires Behavior(states, events) && m <= n < |states| && states[m].PhaseOf(u) == RETIRED
    requires forall k :: m <= k <= n ==> Owns(states[k], tid, u)
    ensures (forall k :: m <= k <= n ==> states[k].PhaseOf(u) == RETIRED) <==>
      (forall k :: m <= k < n ==> !DeletesAt(states[k], events[k], u))
    decreases n
  {
    hide SystemOk, SystemStep, Owns, DeletesAt, OwnerDeletesAt, Phase;
    if m < n {
      OwnedDataStays(states, events, m, n - 1, tid, u);
      SystemOkHolds(states, events, n - 1);
      assert SystemStep(states[n - 1], events[n - 1], states[n - 1 + 1]);
      OwnerHasNotDeleted(states[n - 1], events[n - 1], states[n], tid, u);
      if states[n - 1].PhaseOf(u) == RETIRED {
        StepKeepsRetired(states[n - 1], events[n - 1], states[n], u);
      }
    }
  }

  // ---------------------------------------------------------------- where such deletions come from

  /** The chain's cleanup has read that the challenge is gone or somebody else's to finish. */
  predicate FoundTaken(s: System, tid: Tid, u: Uuid) {
    tid in s.jobs && tid in s.db.runs && s.jobs[tid].Cleanup? && s.jobs[tid].u == u &&
    var h := HashSeen(s.db.runs[tid].obs, u);
    h.Some? && (h.value.state.None? || h.value.state == Some(CLEANUP))
  }

  lemma DeleteFollows(j: Job, obs: seq<Obs>, next: Job)
    requires Next(j, obs, Some(next)) && next.Delete?
    ensures j.Cleanup? && j.u == next.u
    ensures var h := HashSeen(obs, next.u); h.Some? && (h.value.state.None? || h.value.state == Some(CLEANUP))
  {
    hide Decide, StageOutcome;
  }

  lemma DeleteStep(s: System, e: Happening, s': System, tid: Tid)
    requires SystemStep(s, e, s') && tid in s'.jobs && s'.jobs[tid].Delete?
    ensures (tid in s.jobs && s.jobs[tid] == s'.jobs[tid]) || FoundTaken(s, tid, s'.jobs[tid].u)
  {
    if e.Do? && (e.step.Exec? || e.step.Return?) && e.step.tid == tid {
      DeleteFollows(s.jobs[tid], s.db.runs[tid].obs, s'.jobs[tid]);
    }
    hide Next;
  }

  /** A deletion by a chain that does not own the data comes only from a cleanup that read CLEANUP or no state at all. */
  lemma {:induction false} DeletionsFoundTaken(states: seq<System>, events: seq<Happening>, n: nat, tid: Tid, u: Uuid)
    requires Behavior(states, events) && n < |states| && tid in states[n].jobs
    requires states[n].jobs[tid].Delete? && states[n].jobs[tid].u == u
    ensures exists k :: 0 <= k < n && FoundTaken(states[k], tid, u)
  {
    hide SystemStep, FoundTaken;
    if n > 0 {
      assert SystemStep(states[n - 1], events[n - 1], states[n - 1 + 1]);
      DeleteStep(states[n - 1], events[n - 1], states[n], tid);
      if !FoundTaken(states[n - 1], tid, u) {
        DeletionsFoundTaken(states, events, n - 1, tid, u);
      }
    }
  }
}
