/**
 * Runs of the manager in which one job at a time reads and commits: every job that can run alone on
 * the store can do so in a behavior. The other half of serializability: what can happen one job at a
 * time is among the things that can happen.
 */
module SequentialRuns {
  import opened Options
  import opened RedisStore
  import opened Transactions
  import opened ManagerJobs
  import opened LifecycleStore
  import opened ChallengeLifecycle

  /** A behavior under construction. */
  datatype Trail = Trail(states: seq<System>, events: seq<Happening>) {
    ghost predicate Valid() {
      states != [] && Behavior(states, events)
    }

    function First(): System
      requires states != []
    {
      states[0]
    }

    function Last(): System
      requires states != []
    {
      states[|states| - 1]
    }
  }

  lemma Extended(t: Trail, e: Happening, s: System) returns (t': Trail)
    requires t.Valid() && SystemStep(t.Last(), e, s)
    ensures t'.Valid() && t'.First() == t.First() && t'.Last() == s
  {
    hide SystemStep;
    t' := Trail(t.states + [s], t.events + [e]);
    forall i | 0 <= i < |t'.events|
      ensures SystemStep(t'.states[i], t'.events[i], t'.states[i + 1])
    {
      if i < |t.events| {
        assert t'.states[i] == t.states[i] && t'.states[i + 1] == t.states[i + 1] && t'.events[i] == t.events[i];
      }
    }
  }

  function KeysOf(obs: seq<Obs>): set<Key> {
    if obs == [] then {} else KeysOf(obs[..|obs| - 1]) + {obs[|obs| - 1].key}
  }

  /** The run of a job that has made some of its reads, and nothing else in flight. */
  function Reading(s: System, tid: Tid, obs: seq<Obs>): System
    requires tid in s.jobs
  {
    s.(db := s.db.(runs := map[tid := Run(BodyOf(s.jobs[tid]), obs, KeysOf(obs), false)]))
  }

  lemma OneMore(t: Trail, s: System, tid: Tid, obs: seq<Obs>, k: Key) returns (t': Trail)
    requires t.Valid() && tid in s.jobs && t.Last() == Reading(s, tid, obs) && Act(s.jobs[tid], obs) == Read(k)
    ensures t'.Valid() && t'.First() == t.First() && t'.Last() == Reading(s, tid, obs + [Obs(k, At(s.db.store, k))])
  {
    hide Act;
    var body, next := BodyOf(s.jobs[tid]), obs + [Obs(k, At(s.db.store, k))];
    assert next[..|obs|] == obs;
    t' := t;
    if k !in KeysOf(obs) {
      t' := Extended(t', Do(Watch(tid), None), s.(db := s.db.(runs := map[tid := Run(body, obs, KeysOf(obs) + {k}, false)])));
    } else {
      assert KeysOf(obs) + {k} == KeysOf(obs);
    }
    t' := Extended(t', Do(Fetch(tid), None), Reading(s, tid, next));
  }

  lemma {:induction false} ReadAll(t: Trail, s: System, tid: Tid, obs: seq<Obs>, n: nat) returns (t': Trail)
    requires t.Valid() && tid in s.jobs && t.Last() == Reading(s, tid, [])
    requires n <= |obs| && ReadsFrom(BodyOf(s.jobs[tid]), obs, s.db.store)
    ensures t'.Valid() && t'.First() == t.First() && t'.Last() == Reading(s, tid, obs[..n])
    decreases n
  {
    hide Act;
    if n == 0 {
      t' := t;
    } else {
      t' := ReadAll(t, s, tid, obs, n - 1);
      assert obs[..n] == obs[..n - 1] + [Obs(obs[n - 1].key, At(s.db.store, obs[n - 1].key))];
      t' := OneMore(t', s, tid, obs[..n - 1], obs[n - 1].key);
    }
  }

  /** The system after a job has run alone and handed over to the next one. */
  function Ended(s: System, tid: Tid, obs: seq<Obs>, ws: seq<Write>, next: Option<Job>): System
    requires tid in s.jobs
  {
    var log := if ws == [] then s.db.log else s.db.log + [Event(BodyOf(s.jobs[tid]), obs, ws)];
    System(State(ApplyAll(ws, s.db.store), map[], log), Replaced(s.jobs, tid, next), s.minted, BornAfterAll(ws, s.born))
  }

  lemma LastStep(s: System, tid: Tid, obs: seq<Obs>, ws: seq<Write>, next: Option<Job>)
    requires tid in s.jobs && Act(s.jobs[tid], obs) == Commit(ws) && Next(s.jobs[tid], obs, next)
    ensures
      SystemStep(Reading(s, tid, obs), Do(if ws == [] then Return(tid) else Exec(tid), next), Ended(s, tid, obs, ws, next))
  {
    hide Act, Next, Apply;
    assert map[tid := Run(BodyOf(s.jobs[tid]), obs, KeysOf(obs), false)] - {tid} == map[];
  }

  /** A job that can run alone on the store does so, when nothing else is in flight. */
  lemma RunsToEnd(t: Trail, tid: Tid, obs: seq<Obs>, ws: seq<Write>, next: Option<Job>) returns (t': Trail)
    requires t.Valid() && t.Last().db.runs == map[] && tid in t.Last().jobs
    requires RunsAlone(BodyOf(t.Last().jobs[tid]), t.Last().db.store, obs, ws) && Next(t.Last().jobs[tid], obs, next)
    ensures t'.Valid() && t'.First() == t.First() && t'.Last() == Ended(t.Last(), tid, obs, ws, next)
  {
    hide Act, Next, Apply;
    var s := t.Last();
    t' := Extended(t, Do(Begin(tid, BodyOf(s.jobs[tid])), None), Reading(s, tid, []));
    t' := ReadAll(t', s, tid, obs, |obs|);
    assert obs[..|obs|] == obs;
    LastStep(s, tid, obs, ws, next);
    t' := Extended(t', Do(if ws == [] then Return(tid) else Exec(tid), next), Ended(s, tid, obs, ws, next));
  }

  lemma Arrived(t: Trail, tid: Tid, job: Job) returns (t': Trail)
    requires t.Valid() && tid !in t.Last().jobs && Arrives(job) && (job.Start? ==> job.created !in t.Last().minted)
    ensures t'.Valid() && t'.First() == t.First()
    ensures var s := t.Last();
      t'.Last() == s.(jobs := s.jobs[tid := job], minted := s.minted + if job.Start? then {job.created} else {})
  {
    var s := t.Last();
    t' := Extended(t, Arrive(tid, job),
                   s.(jobs := s.jobs[tid := job], minted := s.minted + if job.Start? then {job.created} else {}));
  }

  // ---------------------------------------------------------------- transactions of one or two reads

  lemma SeenFirst(a: Obs)
    ensures Seen([a], a.key) == Some(a.val) && forall k :: k != a.key ==> Seen([a], k) == None
  {
    assert [a][..0] == [];
  }

  lemma SeenBoth(a: Obs, b: Obs)
    requires a.key != b.key
    ensures Seen([a, b], b.key) == Some(b.val) && Seen([a, b], a.key) == Some(a.val)
  {
    assert [a, b][..1] == [a];
    SeenFirst(a);
  }

  lemma SeenAll(a: Obs, b: Obs, c: Obs)
    requires a.key != b.key && a.key != c.key && b.key != c.key
    ensures var obs := [a, b, c];
      Seen(obs, a.key) == Some(a.val) && Seen(obs, b.key) == Some(b.val) && Seen(obs, c.key) == Some(c.val)
  {
    assert [a, b, c][..2] == [a, b];
    SeenBoth(a, b);
  }

  lemma OneRead(j: Job, s: Store, k: Key)
    requires Act(j, []) == Read(k) && Act(j, [Obs(k, At(s, k))]).Commit?
    ensures var obs := [Obs(k, At(s, k))]; RunsAlone(BodyOf(j), s, obs, Act(j, obs).writes)
  {
    hide Act;
    assert [Obs(k, At(s, k))][..0] == [];
  }

  lemma TwoReads(j: Job, s: Store, k: Key, l: Key)
    requires Act(j, []) == Read(k) && Act(j, [Obs(k, At(s, k))]) == Read(l)
    requires Act(j, [Obs(k, At(s, k)), Obs(l, At(s, l))]).Commit?
    ensures var obs := [Obs(k, At(s, k)), Obs(l, At(s, l))]; RunsAlone(BodyOf(j), s, obs, Act(j, obs).writes)
  {
    hide Act;
    var obs := [Obs(k, At(s, k)), Obs(l, At(s, l))];
    assert obs[..0] == [] && obs[..1] == [Obs(k, At(s, k))];
  }

  lemma ThreeReads(j: Job, s: Store, k: Key, l: Key, m: Key)
    requires Act(j, []) == Read(k) && Act(j, [Obs(k, At(s, k))]) == Read(l)
    requires Act(j, [Obs(k, At(s, k)), Obs(l, At(s, l))]) == Read(m)
    requires Act(j, [Obs(k, At(s, k)), Obs(l, At(s, l)), Obs(m, At(s, m))]).Commit?
    ensures var obs := [Obs(k, At(s, k)), Obs(l, At(s, l)), Obs(m, At(s, m))];
      RunsAlone(BodyOf(j), s, obs, Act(j, obs).writes)
  {
    hide Act;
    var obs := [Obs(k, At(s, k)), Obs(l, At(s, l)), Obs(m, At(s, m))];
    assert obs[..0] == [] && obs[..1] == [Obs(k, At(s, k))] && obs[..2] == [Obs(k, At(s, k)), Obs(l, At(s, l))];
  }
}
